/**
 * Log Matching: over every run, two logs that hold an entry of the same term at the same
 * index are identical up to there, even though a restart loses the log.
 */
module RaftMatching {
  import opened Basics
  import opened Raft
  import E = RaftElection

  lemma PrefixTrans(a: seq<Entry>, b: seq<Entry>, c: seq<Entry>)
    requires a <= b && b <= c
    ensures a <= c
  {
  }

  // ---- The invariant -----------------------------------------------------

  /** Each entry comes, with everything before it, from the log of the leader of its term. */
  ghost predicate Rooted(log: seq<Entry>, h: History) {
    forall i :: 0 <= i < |log| ==> log[i].term in h.termLogs && log[..i + 1] <= h.termLogs[log[i].term]
  }

  ghost predicate ServerLogOk(n: Id, s: Server, h: History) {
    && Rooted(s.log, h)
    && (forall i :: 0 <= i < |s.log| ==> s.log[i].term <= s.term)
    && (s.role.Leader? ==> s.term in h.termLogs && s.log == h.termLogs[s.term])
  }

  /** A leader's log is what it started from, all of earlier terms, and then entries of its own term. */
  ghost predicate TermLogOk(t: Term, h: History)
    requires t in h.termLogs
  {
    && Rooted(h.termLogs[t], h)
    && t in h.startLogs && h.startLogs[t] <= h.termLogs[t]
    && (forall i :: 0 <= i < |h.startLogs[t]| ==> h.startLogs[t][i].term < t)
    && (forall i :: |h.startLogs[t]| <= i < |h.termLogs[t]| ==> h.termLogs[t][i].term == t)
  }

  /** Entries on the wire are a piece of their leader's log. */
  ghost predicate AppendOk(m: Message, h: History) {
    m.Append? ==>
      && m.term in h.termLogs
      && m.prevIndex + |m.entries| <= |h.termLogs[m.term]|
      && m.entries == h.termLogs[m.term][m.prevIndex..m.prevIndex + |m.entries|]
      && m.prevTerm == TermAt(h.termLogs[m.term], m.prevIndex)
  }

  ghost predicate LogsInv(c: Cluster) {
    && c.h.termLogs.Keys == c.h.startLogs.Keys == c.h.leaders.Keys
    && (forall t :: t in c.h.termLogs ==> TermLogOk(t, c.h))
    && (forall n :: 0 <= n < |c.servers| ==> ServerLogOk(n, c.servers[n], c.h))
    && (forall m :: m in c.net ==> AppendOk(m, c.h))
  }

  ghost predicate Inv(c: Cluster) {
    E.Inv(c) && LogsInv(c)
  }

  // ---- Facts about rooted logs -------------------------------------------

  /** Leaders' logs only grow, and new ones appear; where they started from stays. */
  ghost predicate Extends(h: History, h': History) {
    && (forall t :: t in h.termLogs ==> t in h'.termLogs && h.termLogs[t] <= h'.termLogs[t])
    && (forall t :: t in h.startLogs ==> t in h'.startLogs && h'.startLogs[t] == h.startLogs[t])
  }

  lemma RootedExtends(log: seq<Entry>, h: History, h': History)
    requires Rooted(log, h) && Extends(h, h')
    ensures Rooted(log, h')
  {
    forall i | 0 <= i < |log| ensures log[i].term in h'.termLogs && log[..i + 1] <= h'.termLogs[log[i].term] {
      PrefixTrans(log[..i + 1], h.termLogs[log[i].term], h'.termLogs[log[i].term]);
    }
  }

  lemma RootedPrefix(log: seq<Entry>, k: nat, h: History)
    requires Rooted(log, h) && k <= |log|
    ensures Rooted(log[..k], h)
  {
    forall i | 0 <= i < k
      ensures log[..k][i].term in h.termLogs && log[..k][..i + 1] <= h.termLogs[log[..k][i].term]
    {
      assert log[..k][..i + 1] == log[..i + 1];
    }
  }

  /** Rooted logs agree up to any index where their terms agree. */
  lemma RootedAgree(a: seq<Entry>, b: seq<Entry>, h: History, i: nat)
    requires Rooted(a, h) && Rooted(b, h) && i < |a| && i < |b| && a[i].term == b[i].term
    ensures a[..i + 1] == b[..i + 1]
  {
    var root := h.termLogs[a[i].term];
    assert a[..i + 1] == root[..i + 1] && b[..i + 1] == root[..i + 1];
  }

  // ---- Merging a leader's entries ----------------------------------------

  lemma {:induction false} MergeWhenFull(log: seq<Entry>, prev: nat, entries: seq<Entry>, room: nat)
    requires |log| <= prev && room <= |log|
    ensures Merge(log, prev, entries, room) == log
    decreases |entries|
  {
    if entries != [] {
      MergeWhenFull(log, prev + 1, entries[1..], room);
    }
  }

  /** A prefix of the leader's log that stops by `end`, or the old log where it already holds that much. */
  ghost predicate Merged(r: seq<Entry>, log: seq<Entry>, end: nat, lead: seq<Entry>) {
    (r <= lead && |r| <= end) || (r == log && end <= |log| && end <= |lead| && log[..end] == lead[..end])
  }

  /** The first new entry conflicts or is missing: what is kept is the leader's. */
  lemma KeptIsLeads(log: seq<Entry>, prev: nat, x: Entry, lead: seq<Entry>, shared: seq<Entry>)
    requires prev <= |log| && prev < |lead| && log[..prev] == lead[..prev] && x == lead[prev]
    requires shared <= log && shared <= lead && (prev < |log| ==> log[prev].term != x.term)
    ensures (if prev < |log| then log[..prev] else log) == lead[..prev]
    ensures lead[..prev] + [x] == lead[..prev + 1] && shared <= lead[..prev] && shared <= lead[..prev + 1]
  {
  }

  lemma RestOf(lead: seq<Entry>, prev: nat, entries: seq<Entry>)
    requires prev + |entries| <= |lead| && entries == lead[prev..prev + |entries|] && entries != []
    ensures entries[0] == lead[prev] && entries[1..] == lead[prev + 1..prev + 1 + |entries[1..]|]
  {
  }

  lemma MergedAfterCut(r: seq<Entry>, log: seq<Entry>, cut: nat, end: nat, lead: seq<Entry>)
    requires cut <= end <= |lead| && Merged(r, lead[..cut], end, lead)
    ensures Merged(r, log, end, lead)
  {
  }

  /** What is asked of a follower's log, a piece of the leader's and what both share, to merge the piece. */
  ghost predicate Mergeable(log: seq<Entry>, prev: nat, entries: seq<Entry>, lead: seq<Entry>, shared: seq<Entry>) {
    && prev <= |log| && prev + |entries| <= |lead| && log[..prev] == lead[..prev]
    && entries == lead[prev..prev + |entries|] && shared <= log && shared <= lead
  }

  /** With the leader's log up to and including the first entry the rest of the piece can go on. */
  lemma MergeableCut(log: seq<Entry>, prev: nat, entries: seq<Entry>, lead: seq<Entry>, shared: seq<Entry>)
    requires Mergeable(log, prev, entries, lead, shared) && entries != []
    requires prev < |log| ==> log[prev].term != entries[0].term
    ensures Mergeable(lead[..prev + 1], prev + 1, entries[1..], lead, shared)
    ensures (if prev < |log| then log[..prev] else log) + [entries[0]] == lead[..prev + 1]
    ensures (if prev < |log| then log[..prev] else log) == lead[..prev] && shared <= lead[..prev]
  {
    RestOf(lead, prev, entries);
    KeptIsLeads(log, prev, entries[0], lead, shared);
  }

  /**
   * Merging part of a leader's log gives a prefix of it reaching at most the new entries, or leaves a log
   * that already holds them; whatever both logs shared stays; with room all entries are in.
   */
  lemma {:induction false} MergeResult(
      log: seq<Entry>, prev: nat, entries: seq<Entry>, room: nat, lead: seq<Entry>, shared: seq<Entry>, h: History)
    requires Rooted(log, h) && Rooted(lead, h) && Mergeable(log, prev, entries, lead, shared)
    ensures var r := Merge(log, prev, entries, room);
      && Merged(r, log, prev + |entries|, lead) && shared <= r
      && (prev + |entries| <= room ==> prev + |entries| <= |r|)
    decreases |entries|
  {
    if entries != [] {
      if prev < |log| && log[prev].term == entries[0].term {
        RestOf(lead, prev, entries);
        RootedAgree(log, lead, h, prev);
        MergeResult(log, prev + 1, entries[1..], room, lead, shared, h);
      } else {
        MergeableCut(log, prev, entries, lead, shared);
        if prev < room {
          RootedPrefix(lead, prev + 1, h);
          MergeResult(lead[..prev + 1], prev + 1, entries[1..], room, lead, shared, h);
          MergedAfterCut(Merge(log, prev, entries, room), log, prev + 1, prev + |entries|, lead);
        } else {
          MergeWhenFull(lead[..prev], prev + 1, entries[1..], room);
        }
      }
    }
  }

  /** The consistency check establishes agreement up to the preceding index. */
  lemma ConsistentAgrees(log: seq<Entry>, m: Message, h: History)
    requires m.Append? && AppendOk(m, h) && Rooted(log, h) && Rooted(h.termLogs[m.term], h) && Consistent(log, m)
    ensures log[..m.prevIndex] == h.termLogs[m.term][..m.prevIndex]
  {
    if m.prevIndex > 0 {
      RootedAgree(log, h.termLogs[m.term], h, m.prevIndex - 1);
    }
  }

  // ---- Steps -------------------------------------------------------------

  lemma ServerLogExtends(n: Id, s: Server, h: History, h': History)
    requires ServerLogOk(n, s, h) && Extends(h, h')
    requires s.role.Leader? ==> s.term in h.termLogs && h'.termLogs[s.term] == h.termLogs[s.term]
    ensures ServerLogOk(n, s, h')
  {
    RootedExtends(s.log, h, h');
  }

  lemma AppendExtends(m: Message, h: History, h': History)
    requires AppendOk(m, h) && Extends(h, h')
    ensures AppendOk(m, h')
  {
  }

  /** A step of one server keeps the logs in order if its own log, its messages and its term's log are. */
  lemma StepLogs(c: Cluster, c': Cluster, n: Id)
    requires LogsInv(c) && n < |c.servers| && |c'.servers| == |c.servers|
    requires forall m :: 0 <= m < |c.servers| && m != n ==> c'.servers[m] == c.servers[m]
    requires Extends(c.h, c'.h) && c'.h.termLogs.Keys == c'.h.startLogs.Keys == c'.h.leaders.Keys
    requires forall t :: t in c'.h.termLogs ==>
      TermLogOk(t, c'.h) || (t in c.h.termLogs && c'.h.termLogs[t] == c.h.termLogs[t])
    requires ServerLogOk(n, c'.servers[n], c'.h)
    requires forall m :: 0 <= m < |c.servers| && m != n && c.servers[m].role.Leader? ==>
      c.servers[m].term in c.h.termLogs && c'.h.termLogs[c.servers[m].term] == c.h.termLogs[c.servers[m].term]
    requires forall m :: m in c'.net ==> m in c.net || AppendOk(m, c'.h)
    ensures LogsInv(c')
  {
    forall m | 0 <= m < |c.servers| ensures ServerLogOk(m, c'.servers[m], c'.h) {
      if m != n {
        ServerLogExtends(m, c.servers[m], c.h, c'.h);
      }
    }
    forall t | t in c'.h.termLogs ensures TermLogOk(t, c'.h) {
      if !TermLogOk(t, c'.h) {
        assert TermLogOk(t, c.h);
        RootedExtends(c.h.termLogs[t], c.h, c'.h);
      }
    }
    forall m | m in c'.net ensures AppendOk(m, c'.h) {
      if m in c.net {
        AppendExtends(m, c.h, c'.h);
      }
    }
  }

  /** A new leader opens its term's log with the log it stood with and its no-op. */
  lemma LeadLogs(n: Id, s: Server, h: History, full: bool)
    requires h.termLogs.Keys == h.startLogs.Keys == h.leaders.Keys
    requires ServerLogOk(n, s, h) && s.role.Candidate? && s.term !in h.leaders
    ensures var after := Lead(s, full);
      var h' := Election(h, n, s, after);
      && Extends(h, h') && h'.termLogs.Keys == h'.startLogs.Keys == h'.leaders.Keys
      && TermLogOk(s.term, h') && ServerLogOk(n, after, h')
      && (forall t :: t in h'.termLogs && t != s.term ==> t in h.termLogs && h'.termLogs[t] == h.termLogs[t])
  {
    var after := Lead(s, full);
    var h' := Election(h, n, s, after);
    RootedExtends(s.log, h, h');
    assert after.log == h'.termLogs[s.term];
    forall i | 0 <= i < |after.log|
      ensures after.log[i].term in h'.termLogs && after.log[..i + 1] <= h'.termLogs[after.log[i].term]
    {
      if i < |s.log| {
        assert after.log[..i + 1] == s.log[..i + 1];
      }
    }
  }

  /** Votes and standing as a candidate leave every log alone. */
  ghost predicate SameLogs(h: History, h': History) {
    h'.termLogs == h.termLogs && h'.startLogs == h.startLogs && h'.leaders == h.leaders
  }

  lemma QuietLogs(c: Cluster, c': Cluster, n: Id)
    requires LogsInv(c) && n < |c.servers| && |c'.servers| == |c.servers|
    requires forall m :: 0 <= m < |c.servers| && m != n ==> c'.servers[m] == c.servers[m]
    requires SameLogs(c.h, c'.h)
    requires ServerLogOk(n, c'.servers[n], c.h)
    requires forall m :: m in c'.net ==> m in c.net || AppendOk(m, c.h)
    ensures LogsInv(c')
  {
    assert forall m :: 0 <= m < |c.servers| ==> ServerLogOk(m, c.servers[m], c.h);
    RootedExtends(c'.servers[n].log, c.h, c'.h);
    StepLogs(c, c', n);
  }

  /** An election step: the server `s` has the votes, and history may have gained votes first. */
  lemma ElectionLogs(c: Cluster, c': Cluster, n: Id, s: Server, h: History, full: bool)
    requires LogsInv(c) && n < |c.servers| && |c'.servers| == |c.servers|
    requires forall m :: 0 <= m < |c.servers| && m != n ==> c'.servers[m] == c.servers[m]
    requires SameLogs(c.h, h) && ServerLogOk(n, s, c.h) && s.role.Candidate?
    requires |s.votes| >= Majority(|c.servers|) ==> s.term !in c.h.leaders
    requires c'.servers[n] == LeadIfElected(s, |c.servers|, full)
    requires c'.h == Election(h, n, s, c'.servers[n])
    requires forall m :: m in c'.net ==> m in c.net || !m.Append?
    ensures LogsInv(c')
  {
    RootedExtends(s.log, c.h, h);
    if |s.votes| >= Majority(|c.servers|) {
      LeadLogs(n, s, h, full);
      assert forall m :: 0 <= m < |c.servers| ==> ServerLogOk(m, c.servers[m], c.h);
      StepLogs(c, c', n);
    } else {
      QuietLogs(c, c', n);
    }
  }

  lemma CampaignsLogs(c: Cluster, n: Id, full: bool)
    requires Inv(c) && Enabled(c, Campaigns(n, full))
    ensures LogsInv(Campaigning(c, n, full))
  {
    var s, size := c.servers[n], |c.servers|;
    assert E.ServerOk(n, s, c.h, size) && ServerLogOk(n, s, c.h);
    E.CampaignOk(n, s, c.h, size);
    var stood, h := Campaign(s, n), Candidacy(c.h, n, s);
    E.LeadOk(n, stood, h, size, full);
    ElectionLogs(c, Campaigning(c, n, full), n, stood, h, full);
  }

  lemma HearsVoteLogs(c: Cluster, n: Id, m: Message, full: bool)
    requires Inv(c) && Enabled(c, HearsVote(n, m, full))
    ensures LogsInv(Counting(c, n, m, full))
  {
    var s, size := c.servers[n], |c.servers|;
    var c' := Counting(c, n, m, full);
    assert E.ServerOk(n, s, c.h, size) && E.MessageOk(m, c.h) && ServerLogOk(n, s, c.h);
    if s.role.Candidate? && m.term == s.term && m.from < size && m.from !in s.votes && m.granted {
      var t := s.(votes := s.votes + {m.from});
      E.LeadOk(n, t, c.h, size, full);
      ElectionLogs(c, c', n, t, c.h, full);
    } else {
      QuietLogs(c, c', n);
    }
  }

  /** A leader's own append extends its term's log. */
  lemma SubmitLog(n: Id, s: Server, h: History, data: seq<uint8>)
    requires ServerLogOk(n, s, h) && s.role.Leader? && TermLogOk(s.term, h)
    ensures var after := Submit(s, data);
      var h' := h.(termLogs := h.termLogs[s.term := after.log], acks := h.acks[(n, s.term) := |after.log|]);
      Extends(h, h') && TermLogOk(s.term, h') && ServerLogOk(n, after, h')
  {
    var after := Submit(s, data);
    var h' := h.(termLogs := h.termLogs[s.term := after.log], acks := h.acks[(n, s.term) := |after.log|]);
    RootedExtends(s.log, h, h');
    forall i | 0 <= i < |after.log|
      ensures after.log[i].term in h'.termLogs && after.log[..i + 1] <= h'.termLogs[after.log[i].term]
    {
      if i < |s.log| {
        assert after.log[..i + 1] == s.log[..i + 1];
      }
    }
  }

  lemma OtherLeadersTerms(c: Cluster, n: Id, m: Id)
    requires Inv(c) && n < |c.servers| && m < |c.servers| && m != n
    requires c.servers[n].role.Leader? && c.servers[m].role.Leader?
    ensures c.servers[m].term in c.h.termLogs && c.servers[m].term != c.servers[n].term
  {
    assert E.ServerOk(n, c.servers[n], c.h, |c.servers|);
    assert E.ServerOk(m, c.servers[m], c.h, |c.servers|);
  }

  lemma SubmitsLogs(c: Cluster, n: Id, data: seq<uint8>)
    requires Inv(c) && Enabled(c, Submits(n, data))
    ensures LogsInv(Submitting(c, n, data))
  {
    var s := c.servers[n];
    assert ServerLogOk(n, s, c.h) && TermLogOk(s.term, c.h);
    SubmitLog(n, s, c.h, data);
    forall m | 0 <= m < |c.servers| && m != n && c.servers[m].role.Leader?
      ensures c.servers[m].term in c.h.termLogs && c.servers[m].term != s.term
    {
      OtherLeadersTerms(c, n, m);
    }
    StepLogs(c, Submitting(c, n, data), n);
  }

  /** Whatever a follower makes of an append, its log stays rooted. */
  lemma AppendServerLog(n: Id, s: Server, h: History, m: Message, room: nat)
    requires ServerLogOk(n, s, h) && m.Append? && AppendOk(m, h) && TermLogOk(m.term, h)
    ensures ServerLogOk(n, OnAppend(s, m, room), h)
  {
    if m.term >= s.term && Consistent(s.log, m) {
      var lead := h.termLogs[m.term];
      ConsistentAgrees(s.log, m, h);
      MergeResult(s.log, m.prevIndex, m.entries, room, lead, [], h);
      var r := Merge(s.log, m.prevIndex, m.entries, room);
      if r != s.log {
        RootedPrefix(lead, |r|, h);
        TermsBounded(m.term, h);
        assert r == lead[..|r|];
      }
    }
  }

  lemma TermsBounded(t: Term, h: History)
    requires t in h.termLogs && TermLogOk(t, h)
    ensures forall i :: 0 <= i < |h.termLogs[t]| ==> h.termLogs[t][i].term <= t
  {
    forall i | 0 <= i < |h.termLogs[t]| ensures h.termLogs[t][i].term <= t {
      if i < |h.startLogs[t]| {
        assert h.termLogs[t][i] == h.startLogs[t][i];
      }
    }
  }

  lemma HearsAppendLogs(c: Cluster, n: Id, m: Message, room: nat)
    requires Inv(c) && Enabled(c, HearsAppend(n, m, room))
    ensures LogsInv(Appending(c, n, m, room))
  {
    assert ServerLogOk(n, c.servers[n], c.h) && AppendOk(m, c.h) && TermLogOk(m.term, c.h);
    AppendServerLog(n, c.servers[n], c.h, m, room);
    QuietLogs(c, Appending(c, n, m, room), n);
  }

  lemma HearsAppendReplyLogs(c: Cluster, n: Id, m: Message)
    requires Inv(c) && Enabled(c, HearsAppendReply(n, m))
    ensures LogsInv(Next(c, HearsAppendReply(n, m)))
  {
    var s := c.servers[n];
    assert ServerLogOk(n, s, c.h);
    if m.term == s.term && s.role.Leader? && m.from < |c.servers| && m.success {
      E.AdvanceCommitOnlyCommits(Counted(s, m), n, |c.servers|, |s.log|);
    }
    QuietLogs(c, Next(c, HearsAppendReply(n, m)), n);
  }

  lemma SendsLogs(c: Cluster, n: Id, to: Id)
    requires Inv(c) && Enabled(c, Sends(n, to))
    ensures LogsInv(Sending(c, n, to))
  {
    assert ServerLogOk(n, c.servers[n], c.h);
    QuietLogs(c, Sending(c, n, to), n);
  }

  /** Votes, recounts, lost contact and restarts keep a log or lose all of it. */
  lemma OtherState(c: Cluster, ev: Event)
    requires Enabled(c, ev) && (ev.HearsRequest? || ev.Recounts? || ev.LosesContact? || ev.Restarts?)
    ensures var s, c' := c.servers[ev.n], Next(c, ev);
      && |c'.servers| == |c.servers| && (forall m :: 0 <= m < |c.servers| && m != ev.n ==> c'.servers[m] == c.servers[m])
      && SameLogs(c.h, c'.h) && (forall m :: m in c'.net ==> m in c.net || !m.Append?)
      && var s' := c'.servers[ev.n];
         && (s'.log == s.log || s'.log == []) && s'.term >= s.term
         && (s'.role.Leader? ==> s.role.Leader? && s'.term == s.term && s'.log == s.log)
  {
    E.AdvanceCommitOnlyCommits(c.servers[ev.n], ev.n, |c.servers|, |c.servers[ev.n].log|);
  }

  lemma OtherLogs(c: Cluster, ev: Event)
    requires LogsInv(c) && Enabled(c, ev) && (ev.HearsRequest? || ev.Recounts? || ev.LosesContact? || ev.Restarts?)
    ensures LogsInv(Next(c, ev))
  {
    assert ServerLogOk(ev.n, c.servers[ev.n], c.h);
    OtherState(c, ev);
    QuietLogs(c, Next(c, ev), ev.n);
  }

  lemma NextLogs(c: Cluster, ev: Event)
    requires Inv(c) && Enabled(c, ev)
    ensures LogsInv(Next(c, ev))
  {
    match ev {
      case Campaigns(n, full) => CampaignsLogs(c, n, full);
      case HearsVote(n, m, full) => HearsVoteLogs(c, n, m, full);
      case Submits(n, data) => SubmitsLogs(c, n, data);
      case Sends(n, to) => SendsLogs(c, n, to);
      case HearsAppend(n, m, room) => HearsAppendLogs(c, n, m, room);
      case HearsAppendReply(n, m) => HearsAppendReplyLogs(c, n, m);
      case _ => OtherLogs(c, ev);
    }
  }

  lemma {:induction false} RunOk(c: Cluster, evs: seq<Event>)
    requires Inv(c) && ValidRun(c, evs)
    ensures Inv(Run(c, evs))
    decreases |evs|
  {
    if evs != [] {
      E.NextOk(c, evs[0]);
      NextLogs(c, evs[0]);
      RunOk(Next(c, evs[0]), evs[1..]);
    }
  }

  /** Log Matching, in every reachable state of a cluster of any size. */
  lemma LogMatching(size: nat, cap: nat, batch: nat, evs: seq<Event>, a: Id, b: Id, i: nat)
    requires ValidRun(NewCluster(size, cap, batch), evs)
    requires var c := Run(NewCluster(size, cap, batch), evs);
      && a < |c.servers| && b < |c.servers| && i < |c.servers[a].log| && i < |c.servers[b].log|
      && c.servers[a].log[i].term == c.servers[b].log[i].term
    ensures var c := Run(NewCluster(size, cap, batch), evs);
      c.servers[a].log[..i + 1] == c.servers[b].log[..i + 1]
  {
    RunOk(NewCluster(size, cap, batch), evs);
    var c := Run(NewCluster(size, cap, batch), evs);
    assert ServerLogOk(a, c.servers[a], c.h) && ServerLogOk(b, c.servers[b], c.h);
    RootedAgree(c.servers[a].log, c.servers[b].log, c.h, i);
  }
}
