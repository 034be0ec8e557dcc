/**
 * Why followers report only what they share with their leader: a leader's next index for a peer
 * never lies before the first entry the two do not share, so what is sent cuts off what differs.
 */
module RaftNextIndex {
  import opened Basics
  import opened Raft
  import E = RaftElection
  import M = RaftMatching
  import C = RaftCompleteness
  import F = RaftSafety

  // ---- Logs --------------------------------------------------------------

  ghost predicate AllOk(h: History) {
    forall t :: t in h.termLogs ==> M.TermLogOk(t, h)
  }

  /** Terms never decrease along a log. */
  lemma Sorted(log: seq<Entry>, h: History, i: nat, j: nat)
    requires M.Rooted(log, h) && AllOk(h) && i <= j < |log|
    ensures log[i].term <= log[j].term
  {
    var t := log[j].term;
    M.TermsBounded(t, h);
    assert log[i] == log[..j + 1][i] == h.termLogs[t][i];
  }

  /** A log with an entry of the leader's term at its end is part of the leader's. */
  lemma EndsInTerm(log: seq<Entry>, h: History, t: Term, i: nat)
    requires M.Rooted(log, h) && AllOk(h) && i < |log| && log[i].term == t
    requires forall j :: 0 <= j < |log| ==> log[j].term <= t
    ensures t in h.termLogs && log <= h.termLogs[t]
  {
    Sorted(log, h, i, |log| - 1);
    assert log[..|log|] == log;
  }

  /**
   * Entries from index p + 1 on begin no later than where the log leaves the leader's: the log is part
   * of the leader's, or ends by p, or differs from the leader's within p + 1.
   */
  ghost predicate Starts(log: seq<Entry>, lead: seq<Entry>, p: nat) {
    log <= lead || p >= |log| || p >= |lead| || log[..p + 1] != lead[..p + 1]
  }

  /** A first entry that conflicts cuts the log back to the leader's. */
  lemma ConflictCuts(log: seq<Entry>, prev: nat, entries: seq<Entry>, room: nat, lead: seq<Entry>, h: History)
    requires M.Rooted(lead, h) && prev < |log| && prev + |entries| <= |lead| && entries != []
    requires log[..prev] == lead[..prev] && entries == lead[prev..prev + |entries|]
    requires log[prev].term != entries[0].term
    ensures Merge(log, prev, entries, room) <= lead
  {
    M.RestOf(lead, prev, entries);
    if prev < room {
      assert lead[..prev] + [entries[0]] == lead[..prev + 1];
      M.RootedPrefix(lead, prev + 1, h);
      M.MergeResult(lead[..prev + 1], prev + 1, entries[1..], room, lead, [], h);
    } else {
      M.MergeWhenFull(lead[..prev], prev + 1, entries[1..], room);
    }
  }

  /** Merging into a part of the leader's log leaves a part of it. */
  lemma InStepStays(log: seq<Entry>, prev: nat, entries: seq<Entry>, room: nat, lead: seq<Entry>, h: History)
    requires M.Rooted(log, h) && M.Rooted(lead, h) && log <= lead && prev <= |log|
    requires prev + |entries| <= |lead| && entries == lead[prev..prev + |entries|]
    ensures Merge(log, prev, entries, room) <= lead
  {
    M.MergeResult(log, prev, entries, room, lead, [], h);
  }

  // ---- Hints -------------------------------------------------------------

  lemma {:induction false} FirstHasTerm(log: seq<Entry>, i: nat)
    requires 0 < i <= |log|
    ensures log[FirstOfTerm(log, i) - 1].term == log[i - 1].term
    decreases i
  {
    if i > 1 && log[i - 2].term == log[i - 1].term {
      FirstHasTerm(log, i - 1);
    }
  }

  /** A hint describes the log of the follower that gave it, at a place where it differs from the leader's. */
  ghost predicate HintGood(log: seq<Entry>, lead: seq<Entry>, hint: Hint) {
    || (hint.term == 0 && hint.index == |log| + 1)
    || (hint.term != 0 && hint.index > 0 && exists p :: 0 < p <= |log| && DiffersAt(log, lead, hint, p))
  }

  ghost predicate DiffersAt(log: seq<Entry>, lead: seq<Entry>, hint: Hint, p: nat)
    requires 0 < p <= |log|
  {
    log[p - 1].term == hint.term && hint.index == FirstOfTerm(log, p) && p <= |lead| && log[..p] != lead[..p]
  }

  /** Backing up by a good hint never goes on past the first difference. */
  lemma BackupStarts(s: Server, peer: Id, log: seq<Entry>, hint: Hint, h: History)
    requires M.Rooted(log, h) && AllOk(h) && HintGood(log, s.log, hint)
    ensures Starts(log, s.log, Backup(s, peer, hint) - 1)
  {
    var found := LastOfTerm(s.log, |s.log|, hint.term);
    BackupIs(s, peer, hint);
    if hint.term != 0 {
      var p :| 0 < p <= |log| && DiffersAt(log, s.log, hint, p);
      BackupStartsAt(log, s.log, hint, p, found, h);
    }
  }

  lemma BackupIs(s: Server, peer: Id, hint: Hint)
    requires hint.index > 0
    ensures var found := LastOfTerm(s.log, |s.log|, hint.term);
      Backup(s, peer, hint) - 1 == if hint.term == 0 || found == 0 then hint.index - 1 else found
  {
  }

  lemma BackupStartsAt(log: seq<Entry>, lead: seq<Entry>, hint: Hint, p: nat, found: nat, h: History)
    requires M.Rooted(log, h) && AllOk(h) && 0 < p <= |log| && DiffersAt(log, lead, hint, p)
    requires found <= |lead| && (found > 0 ==> lead[found - 1].term == hint.term)
    requires forall i :: found <= i < |lead| ==> lead[i].term != hint.term
    ensures Starts(log, lead, if found == 0 then hint.index - 1 else found)
  {
    if found == 0 {
      FirstHasTerm(log, p);
      FirstStarts(log, lead, hint.index, hint.term);
    } else if found < |log| && found < |lead| && log[..found + 1] == lead[..found + 1] {
      SharedTooFar(log, lead, found, p, hint.term, h);
    }
  }

  lemma SameEntry(a: seq<Entry>, b: seq<Entry>, i: nat)
    requires i < |a| && i < |b| && a[..i + 1] == b[..i + 1]
    ensures a[i] == b[i]
  {
    assert a[..i + 1][i] == b[..i + 1][i];
  }

  /** A term the leader does not have begins no earlier than the difference. */
  lemma FirstStarts(log: seq<Entry>, lead: seq<Entry>, first: nat, term: Term)
    requires 0 < first <= |log| && log[first - 1].term == term
    requires forall i :: 0 <= i < |lead| ==> lead[i].term != term
    ensures Starts(log, lead, first - 1)
  {
    if first <= |lead| && log[..first] == lead[..first] {
      SameEntry(log, lead, first - 1);
    }
  }

  /** Logs that share the end of a run of one term share all its entries. */
  lemma SharedTooFar(log: seq<Entry>, lead: seq<Entry>, found: nat, p: nat, term: Term, h: History)
    requires M.Rooted(log, h) && AllOk(h)
    requires 0 < found < |lead| && found < |log| && 0 < p <= |log| && p <= |lead|
    requires log[..found + 1] == lead[..found + 1]
    requires lead[found - 1].term == log[p - 1].term == term && lead[found].term != term
    ensures log[..p] == lead[..p]
  {
    assert log[..found] == log[..found + 1][..found] == lead[..found];
    SameEntry(log, lead, found);
    SameEntry(log, lead, found - 1);
    if p > found {
      RunHolds(log, found, p, term, h);
    }
    assert log[..p] == log[..found][..p] == lead[..found][..p] == lead[..p];
  }

  /** Between two entries of a term all are of that term. */
  lemma RunHolds(log: seq<Entry>, found: nat, p: nat, term: Term, h: History)
    requires M.Rooted(log, h) && AllOk(h) && 0 < found < p <= |log|
    requires log[found - 1].term == log[p - 1].term == term
    ensures log[found].term == term
  {
    Sorted(log, h, found - 1, found);
    Sorted(log, h, found, p - 1);
  }

  // ---- The invariant -----------------------------------------------------

  /** The leader of a term has put an entry of its own into its log. */
  ghost predicate NoopIn(t: Term, h: History) {
    t > 0 && t in h.termLogs && t in h.startLogs && |h.startLogs[t]| < |h.termLogs[t]|
  }

  /**
   * What a leader of term t may send a server from index p + 1 on: an older entry only to one that
   * has heard of the term, and then no later than where its log leaves the leader's.
   */
  ghost predicate PeerOk(s: Server, h: History, t: Term, p: nat) {
    && t in h.termLogs && t in h.startLogs
    && (p < |h.startLogs[t]| ==> s.term >= t)
    && (s.term == t ==> Starts(s.log, h.termLogs[t], p))
  }

  ghost predicate AppendOk(m: Message, servers: seq<Server>, h: History) {
    m.Append? && NoopIn(m.term, h) ==>
      && (m.entries == [] ==> m.prevTerm == m.term)
      && (m.to < |servers| ==> PeerOk(servers[m.to], h, m.term, m.prevIndex))
  }

  /** What a reply tells the leader of its term still holds of the follower, if it is in that term still. */
  ghost predicate ReplyOk(m: Message, servers: seq<Server>, h: History) {
    m.AppendReply? && m.from < |servers| && (m.success || m.hint.index > 0) ==>
      && m.term in h.termLogs && servers[m.from].term >= m.term
      && (NoopIn(m.term, h) && servers[m.from].term == m.term ==>
            || servers[m.from].log <= h.termLogs[m.term]
            || (!m.success && HintGood(servers[m.from].log, h.termLogs[m.term], m.hint)))
  }

  ghost predicate LeaderOk(n: Id, servers: seq<Server>, h: History)
    requires n < |servers|
  {
    servers[n].role.Leader? && NoopIn(servers[n].term, h) ==>
      forall peer :: 0 <= peer < |servers| && peer != n ==>
        PeerOk(servers[peer], h, servers[n].term, NextIndex(servers[n], peer) - 1)
  }

  ghost predicate SendInv(c: Cluster) {
    && c.batch > 0
    && (forall t :: t in c.h.termLogs ==> t > 0)
    && (forall n :: 0 <= n < |c.servers| ==> (c.servers[n].role.Follower? || c.servers[n].term > 0))
    && (forall n :: 0 <= n < |c.servers| ==> LeaderOk(n, c.servers, c.h))
    && (forall m :: m in c.net ==> AppendOk(m, c.servers, c.h) && ReplyOk(m, c.servers, c.h))
  }

  /** What a message leaves a follower with, and what its reply reports, is part of the leader's log. */
  ghost predicate InLead(s: Server, m: Message, room: nat, h: History)
    requires m.Append?
  {
    m.term in h.termLogs && OnAppend(s, m, room).log <= h.termLogs[m.term]
  }

  // ---- What an accepted message leaves behind ----------------------------

  /** A server not yet in the term: the message begins with the no-op or its log is the leader's already. */
  lemma NewcomerInLead(n: Id, s: Server, h: History, m: Message, room: nat)
    requires M.ServerLogOk(n, s, h) && m.Append? && M.AppendOk(m, h) && M.TermLogOk(m.term, h) && NoopIn(m.term, h)
    requires Accepted(s, m) && s.term < m.term && m.prevIndex >= |h.startLogs[m.term]|
    requires m.entries == [] ==> m.prevTerm == m.term
    ensures OnAppend(s, m, room).log <= h.termLogs[m.term]
  {
    var lead, k := h.termLogs[m.term], |h.startLogs[m.term]|;
    M.ConsistentAgrees(s.log, m, h);
    assert m.prevIndex > 0 ==> s.log[m.prevIndex - 1].term != m.term;
    assert m.prevIndex == k && m.entries != [];
    if k < |s.log| {
      ConflictCuts(s.log, k, m.entries, room, lead, h);
    } else {
      assert s.log == lead[..k];
      InStepStays(s.log, k, m.entries, room, lead, h);
    }
  }

  /** A server in the term: its log is the leader's up to the message and the first entry cuts the rest. */
  lemma PeerInLead(n: Id, s: Server, h: History, m: Message, room: nat)
    requires M.ServerLogOk(n, s, h) && m.Append? && M.AppendOk(m, h) && AllOk(h) && m.term in h.termLogs
    requires NoopIn(m.term, h) && Accepted(s, m) && s.term == m.term
    requires Starts(s.log, h.termLogs[m.term], m.prevIndex)
    requires m.entries == [] ==> m.prevTerm == m.term
    ensures OnAppend(s, m, room).log <= h.termLogs[m.term]
  {
    var lead, p := h.termLogs[m.term], m.prevIndex;
    M.ConsistentAgrees(s.log, m, h);
    if p >= |s.log| {
      assert s.log == lead[..p];
    } else if p > 0 && s.log[p - 1].term == m.term {
      EndsInTerm(s.log, h, m.term, p - 1);
    }
    if s.log <= lead {
      InStepStays(s.log, p, m.entries, room, lead, h);
    } else {
      assert p < |lead| && m.entries != [];
      Differs(s.log, lead, p, h);
      ConflictCuts(s.log, p, m.entries, room, lead, h);
    }
  }

  /** Logs that agree up to an index and no further differ there in the term. */
  lemma Differs(log: seq<Entry>, lead: seq<Entry>, p: nat, h: History)
    requires M.Rooted(log, h) && M.Rooted(lead, h) && p < |log| && p < |lead|
    requires log[..p] == lead[..p] && log[..p + 1] != lead[..p + 1]
    ensures log[p].term != lead[p].term
  {
    if log[p].term == lead[p].term {
      M.RootedAgree(log, lead, h, p);
    }
  }

  lemma AcceptedInLead(n: Id, s: Server, h: History, m: Message, room: nat)
    requires M.ServerLogOk(n, s, h) && m.Append? && M.AppendOk(m, h) && AllOk(h) && m.term in h.termLogs
    requires NoopIn(m.term, h) && Accepted(s, m) && PeerOk(s, h, m.term, m.prevIndex)
    requires m.entries == [] ==> m.prevTerm == m.term
    ensures InLead(s, m, room, h)
  {
    if s.term < m.term {
      NewcomerInLead(n, s, h, m, room);
    } else {
      PeerInLead(n, s, h, m, room);
    }
  }

  // ---- What stays --------------------------------------------------------

  /** How an event may change a server: its log stays, is lost, or becomes part of its leader's. */
  ghost predicate Moves(s: Server, s': Server, h': History) {
    s'.term >= s.term && (s'.log == s.log || s'.log == [] || (s'.term in h'.termLogs && s'.log <= h'.termLogs[s'.term]))
  }

  /** The leader's log grows by entries of its own term only. */
  lemma StartsGrows(log: seq<Entry>, h: History, h': History, t: Term, p: nat)
    requires M.Rooted(log, h) && t in h.termLogs && M.Extends(h, h') && M.TermLogOk(t, h) && M.TermLogOk(t, h')
    requires Starts(log, h.termLogs[t], p)
    ensures Starts(log, h'.termLogs[t], p)
  {
    var lead, lead' := h.termLogs[t], h'.termLogs[t];
    assert lead <= lead';
    if p < |lead| {
      assert lead'[..p + 1] == lead[..p + 1];
    } else if p < |log| && p < |lead'| && log[..p + 1] == lead'[..p + 1] {
      SameEntry(log, lead', p);
    }
  }

  /** A log from before a term begins to differ at the no-op of that term at the latest. */
  lemma EarlierStarts(log: seq<Entry>, h: History, t: Term, p: nat)
    requires t in h.termLogs && M.TermLogOk(t, h) && NoopIn(t, h) && p >= |h.startLogs[t]|
    requires forall i :: 0 <= i < |log| ==> log[i].term != t
    ensures Starts(log, h.termLogs[t], p)
  {
    var lead, k := h.termLogs[t], |h.startLogs[t]|;
    if p < |log| && p < |lead| && log[..p + 1] == lead[..p + 1] {
      assert log[..k + 1] == log[..p + 1][..k + 1] == lead[..k + 1];
      SameEntry(log, lead, k);
    }
  }

  lemma PeerStays(n: Id, s: Server, s': Server, h: History, h': History, t: Term, p: nat)
    requires PeerOk(s, h, t, p) && M.ServerLogOk(n, s, h) && Moves(s, s', h') && M.Extends(h, h')
    requires M.TermLogOk(t, h) && M.TermLogOk(t, h') && NoopIn(t, h')
    ensures PeerOk(s', h', t, p)
  {
    if s'.term == t && s'.log == s.log {
      if s.term == t {
        StartsGrows(s.log, h, h', t, p);
      } else {
        EarlierStarts(s.log, h', t, p);
      }
    }
  }

  lemma HintStays(log: seq<Entry>, lead: seq<Entry>, lead': seq<Entry>, hint: Hint)
    requires HintGood(log, lead, hint) && lead <= lead'
    ensures HintGood(log, lead', hint)
  {
    if hint.term != 0 {
      var p :| 0 < p <= |log| && DiffersAt(log, lead, hint, p);
      assert lead'[..p] == lead[..p];
      assert DiffersAt(log, lead', hint, p);
    }
  }

  /** What is known of a follower and its leader's term carries over an event. */
  lemma ReplyStays(m: Message, servers: seq<Server>, servers': seq<Server>, h: History, h': History)
    requires ReplyOk(m, servers, h) && |servers'| == |servers| && M.Extends(h, h') && NoLateNoop(h, h')
    requires m.AppendReply? && m.from < |servers| ==> Moves(servers[m.from], servers'[m.from], h')
    ensures ReplyOk(m, servers', h')
  {
    if m.AppendReply? && m.from < |servers| && (m.success || m.hint.index > 0) {
      var s, s' := servers[m.from], servers'[m.from];
      assert h.termLogs[m.term] <= h'.termLogs[m.term];
      if NoopIn(m.term, h') && s'.term == m.term && s'.log == s.log {
        if s.log <= h.termLogs[m.term] {
          M.PrefixTrans(s.log, h.termLogs[m.term], h'.termLogs[m.term]);
        } else {
          HintStays(s.log, h.termLogs[m.term], h'.termLogs[m.term], m.hint);
        }
      }
    }
  }

  /** One server moves; the history's leaders' logs extend. */
  ghost predicate OneMoves(c: Cluster, c': Cluster, n: Id) {
    && n < |c.servers| == |c'.servers| && c'.batch == c.batch
    && (forall x :: 0 <= x < |c.servers| && x != n ==> c'.servers[x] == c.servers[x])
    && Moves(c.servers[n], c'.servers[n], c'.h) && M.Extends(c.h, c'.h)
    && (forall x :: 0 <= x < |c.servers| ==> M.ServerLogOk(x, c.servers[x], c.h))
    && AllOk(c.h) && AllOk(c'.h) && NoLateNoop(c.h, c'.h)
  }

  /** Leaders of old terms that had no entry of their own do not get one. */
  ghost predicate NoLateNoop(h: History, h': History) {
    forall t :: t in h.termLogs && NoopIn(t, h') ==> NoopIn(t, h)
  }

  lemma PeersStay(c: Cluster, c': Cluster, n: Id, x: Id, t: Term, p: nat)
    requires OneMoves(c, c', n) && x < |c.servers| && PeerOk(c.servers[x], c.h, t, p) && NoopIn(t, c'.h)
    ensures PeerOk(c'.servers[x], c'.h, t, p)
  {
    assert x != n ==> Moves(c.servers[x], c'.servers[x], c'.h);
    PeerStays(x, c.servers[x], c'.servers[x], c.h, c'.h, t, p);
  }

  lemma OldMessageStays(c: Cluster, c': Cluster, n: Id, m: Message)
    requires OneMoves(c, c', n) && AppendOk(m, c.servers, c.h) && ReplyOk(m, c.servers, c.h)
    requires m.Append? ==> m.term in c.h.termLogs
    ensures AppendOk(m, c'.servers, c'.h) && ReplyOk(m, c'.servers, c'.h)
  {
    if m.Append? && m.to < |c.servers| && NoopIn(m.term, c'.h) {
      PeersStay(c, c', n, m.to, m.term, m.prevIndex);
    }
    if m.AppendReply? && m.from < |c.servers| {
      assert Moves(c.servers[m.from], c'.servers[m.from], c'.h);
    }
    ReplyStays(m, c.servers, c'.servers, c.h, c'.h);
  }

  lemma OldLeaderStays(c: Cluster, c': Cluster, n: Id, x: Id)
    requires OneMoves(c, c', n) && x < |c.servers| && LeaderOk(x, c.servers, c.h)
    requires var s, s' := c.servers[x], c'.servers[x];
      s'.role.Leader? ==> s.role.Leader? && s'.term == s.term && s'.stood == s.stood && s'.next == s.next
    ensures LeaderOk(x, c'.servers, c'.h)
  {
    if c'.servers[x].role.Leader? && NoopIn(c'.servers[x].term, c'.h) {
      assert M.ServerLogOk(x, c.servers[x], c.h);
      forall peer | 0 <= peer < |c.servers| && peer != x
        ensures PeerOk(c'.servers[peer], c'.h, c'.servers[x].term, NextIndex(c'.servers[x], peer) - 1)
      {
        PeersStay(c, c', n, peer, c.servers[x].term, NextIndex(c.servers[x], peer) - 1);
      }
    }
  }

  /** An event of one server keeps the invariant if that server's part and its new messages are in order. */
  lemma StepSends(c: Cluster, c': Cluster, n: Id)
    requires SendInv(c) && OneMoves(c, c', n)
    requires forall t :: t in c'.h.termLogs ==> t in c.h.termLogs || t > 0
    requires c'.servers[n].role.Follower? || c'.servers[n].term > 0
    requires LeaderOk(n, c'.servers, c'.h) && forall m :: m in c.net && m.Append? ==> m.term in c.h.termLogs
    requires forall m :: m in c'.net && m !in c.net ==> AppendOk(m, c'.servers, c'.h) && ReplyOk(m, c'.servers, c'.h)
    ensures SendInv(c')
  {
    forall x | 0 <= x < |c.servers| ensures LeaderOk(x, c'.servers, c'.h) {
      if x != n {
        OldLeaderStays(c, c', n, x);
      }
    }
    forall m | m in c'.net ensures AppendOk(m, c'.servers, c'.h) && ReplyOk(m, c'.servers, c'.h) {
      if m in c.net {
        OldMessageStays(c, c', n, m);
      }
    }
  }

  /** Events after which the server leads, if at all, as it led before. */
  lemma QuietSends(c: Cluster, c': Cluster, n: Id)
    requires SendInv(c) && OneMoves(c, c', n) && c'.h.termLogs.Keys == c.h.termLogs.Keys
    requires var s, s' := c.servers[n], c'.servers[n];
      && (s'.role.Leader? ==> s.role.Leader? && s'.term == s.term && s'.stood == s.stood && s'.next == s.next)
      && (s'.role.Follower? || s'.term > 0)
    requires forall m :: m in c.net && m.Append? ==> m.term in c.h.termLogs
    requires forall m :: m in c'.net && m !in c.net ==> AppendOk(m, c'.servers, c'.h) && ReplyOk(m, c'.servers, c'.h)
    ensures SendInv(c')
  {
    OldLeaderStays(c, c', n, n);
    StepSends(c, c', n);
  }

  // ---- Events ------------------------------------------------------------

  /** What the proof of an event uses of the log invariants, before and after. */
  ghost predicate Facts(c: Cluster, c': Cluster) {
    && AllOk(c.h) && AllOk(c'.h)
    && (forall x :: 0 <= x < |c.servers| ==> M.ServerLogOk(x, c.servers[x], c.h))
    && (forall m :: m in c.net && m.Append? ==> m.term in c.h.termLogs)
  }

  ghost predicate NewMessagesOk(c: Cluster, c': Cluster) {
    forall m :: m in c'.net && m !in c.net ==> AppendOk(m, c'.servers, c'.h) && ReplyOk(m, c'.servers, c'.h)
  }

  /** Events after which server n leads, if at all, as it led before; leaders' logs may grow. */
  lemma QuietEvent(c: Cluster, c': Cluster, n: Id, s': Server)
    requires SendInv(c) && Facts(c, c') && n < |c.servers| && c'.servers == c.servers[n := s'] && c'.batch == c.batch
    requires M.Extends(c.h, c'.h) && c'.h.termLogs.Keys == c.h.termLogs.Keys && NoLateNoop(c.h, c'.h)
    requires Moves(c.servers[n], s', c'.h) && (s'.role.Follower? || s'.term > 0) && NewMessagesOk(c, c')
    requires var s := c.servers[n];
      s'.role.Leader? ==> s.role.Leader? && s'.term == s.term && s'.stood == s.stood && s'.next == s.next
    ensures SendInv(c')
  {
    QuietSends(c, c', n);
  }

  /** A server that has just won a term leads it with every next index after the log it stood with. */
  lemma WinEvent(c: Cluster, c': Cluster, n: Id, stood: Server, full: bool)
    requires SendInv(c) && Facts(c, c') && n < |c.servers| && c'.batch == c.batch
    requires c'.servers == c.servers[n := Lead(stood, full)]
    requires stood.term > 0 && stood.term >= c.servers[n].term && stood.term !in c.h.termLogs
    requires stood.term !in c.h.startLogs
    requires c'.h.termLogs == c.h.termLogs[stood.term := Lead(stood, full).log]
    requires c'.h.startLogs == c.h.startLogs[stood.term := stood.log] && NewMessagesOk(c, c')
    ensures SendInv(c')
  {
    var t := stood.term;
    if NoopIn(t, c'.h) {
      forall peer | 0 <= peer < |c.servers| && peer != n
        ensures PeerOk(c'.servers[peer], c'.h, t, NextIndex(c'.servers[n], peer) - 1)
      {
        assert M.ServerLogOk(peer, c.servers[peer], c.h);
        EarlierStarts(c.servers[peer].log, c'.h, t, |stood.log|);
      }
    }
    StepSends(c, c', n);
  }

  /** What a campaign does to everything but the history's votes. */
  lemma CampaignState(c: Cluster, n: Id, full: bool)
    requires Enabled(c, Campaigns(n, full))
    ensures var s, c' := c.servers[n], Campaigning(c, n, full);
      var stood := Campaign(s, n);
      var won := |stood.votes| >= Majority(|c.servers|);
      && c'.servers == c.servers[n := if won then Lead(stood, full) else stood] && c'.batch == c.batch
      && c'.net == c.net + {RequestVote(stood.term, n, |s.log|, LastTerm(s.log))}
      && c'.h.termLogs == (if won then c.h.termLogs[stood.term := Lead(stood, full).log] else c.h.termLogs)
      && c'.h.startLogs == (if won then c.h.startLogs[stood.term := s.log] else c.h.startLogs)
  {
  }

  lemma CampaignsSends(c: Cluster, n: Id, full: bool)
    requires SendInv(c) && Enabled(c, Campaigns(n, full)) && Facts(c, Campaigning(c, n, full))
    requires |{n}| >= Majority(|c.servers|) ==> c.servers[n].term + 1 !in c.h.termLogs
    requires c.h.startLogs.Keys == c.h.termLogs.Keys
    ensures SendInv(Campaigning(c, n, full))
  {
    var s, c' := c.servers[n], Campaigning(c, n, full);
    var stood := Campaign(s, n);
    CampaignState(c, n, full);
    if |stood.votes| >= Majority(|c.servers|) {
      WinEvent(c, c', n, stood, full);
    } else {
      QuietEvent(c, c', n, stood);
    }
  }

  /** What counting a vote does to everything but the record of who leads. */
  lemma CountState(c: Cluster, n: Id, m: Message, full: bool)
    requires Enabled(c, HearsVote(n, m, full))
    ensures var s, c' := c.servers[n], Counting(c, n, m, full);
      var counted := s.(votes := s.votes + {m.from});
      var after := OnVoteReply(s, m, |c.servers|, full);
      && c'.servers == c.servers[n := after] && c'.batch == c.batch && c'.net == c.net
      && (C.Decides(s, m, |c.servers|) ==>
            && after == Lead(counted, full) && c'.h.termLogs == c.h.termLogs[s.term := after.log]
            && c'.h.startLogs == c.h.startLogs[s.term := s.log])
      && (!C.Decides(s, m, |c.servers|) ==>
            && c'.h == c.h && after.log == s.log && after.term >= s.term
            && (after.role == s.role || after.role.Follower?)
            && (after.role.Leader? ==> after == s))
  {
  }

  lemma HearsVoteSends(c: Cluster, n: Id, m: Message, full: bool)
    requires SendInv(c) && Enabled(c, HearsVote(n, m, full)) && Facts(c, Counting(c, n, m, full))
    requires C.Decides(c.servers[n], m, |c.servers|) ==> c.servers[n].term !in c.h.termLogs
    requires c.h.startLogs.Keys == c.h.termLogs.Keys
    ensures SendInv(Counting(c, n, m, full))
  {
    var s, size, c' := c.servers[n], |c.servers|, Counting(c, n, m, full);
    CountState(c, n, m, full);
    if C.Decides(s, m, size) {
      WinEvent(c, c', n, s.(votes := s.votes + {m.from}), full);
    } else {
      QuietEvent(c, c', n, OnVoteReply(s, m, size, full));
    }
  }

  /** A leader's log ends in an entry of its own term exactly if the leader has put one in. */
  lemma EndsInOwn(n: Id, s: Server, h: History)
    requires s.role.Leader? && s.term > 0 && M.ServerLogOk(n, s, h) && M.TermLogOk(s.term, h)
    ensures NoopIn(s.term, h) <==> LastTerm(s.log) == s.term
  {
    if s.log != [] && |h.startLogs[s.term]| == |s.log| {
      assert h.startLogs[s.term] == s.log;
    }
  }

  lemma SubmitsSends(c: Cluster, n: Id, data: seq<uint8>)
    requires SendInv(c) && Enabled(c, Submits(n, data)) && Facts(c, Submitting(c, n, data))
    requires C.Minds(c, Submits(n, data), C.Noop)
    ensures SendInv(Submitting(c, n, data))
  {
    var s, c' := c.servers[n], Submitting(c, n, data);
    assert M.ServerLogOk(n, s, c.h);
    EndsInOwn(n, s, c.h);
    assert c'.h.termLogs == c.h.termLogs[s.term := Submit(s, data).log] && c'.h.startLogs == c.h.startLogs;
    QuietEvent(c, c', n, Submit(s, data));
  }

  lemma SendsSends(c: Cluster, n: Id, to: Id)
    requires SendInv(c) && Enabled(c, Sends(n, to)) && Facts(c, Sending(c, n, to))
    ensures SendInv(Sending(c, n, to))
  {
    var s, m := c.servers[n], NextAppend(c.servers[n], n, to, c.batch);
    assert LeaderOk(n, c.servers, c.h) && M.ServerLogOk(n, s, c.h);
    EndsInOwn(n, s, c.h);
    assert m.entries == [] ==> m.prevIndex == |s.log|;
    assert AppendOk(m, c.servers, c.h);
    QuietEvent(c, Sending(c, n, to), n, s);
  }

  /** An accepted append leaves a follower with its old log or a part of the leader's. */
  lemma KeepsOrShares(n: Id, s: Server, h: History, m: Message, room: nat)
    requires M.ServerLogOk(n, s, h) && m.Append? && M.AppendOk(m, h) && M.TermLogOk(m.term, h) && Accepted(s, m)
    ensures OnAppend(s, m, room).log == s.log || OnAppend(s, m, room).log <= h.termLogs[m.term]
  {
    M.ConsistentAgrees(s.log, m, h);
    M.MergeResult(s.log, m.prevIndex, m.entries, room, h.termLogs[m.term], [], h);
  }

  lemma AcceptsSends(c: Cluster, c': Cluster, n: Id, m: Message, room: nat, after: Server)
    requires SendInv(c) && Facts(c, c') && n < |c.servers| && m in c.net && m.Append? && m.to == n
    requires M.AppendOk(m, c.h) && Accepted(c.servers[n], m) && c'.batch == c.batch
    requires after == OnAppend(c.servers[n], m, room) && after.term == m.term && after.role.Follower?
    requires c'.servers == c.servers[n := after] && c'.h.termLogs == c.h.termLogs && c'.h.startLogs == c.h.startLogs
    requires c'.net == c.net + {AppendReply(n, m.leader, m.term, true, |after.log|, NoHint)}
    ensures SendInv(c') && (NoopIn(m.term, c.h) ==> InLead(c.servers[n], m, room, c.h))
  {
    assert M.ServerLogOk(n, c.servers[n], c.h) && AppendOk(m, c.servers, c.h);
    KeepsOrShares(n, c.servers[n], c.h, m, room);
    if NoopIn(m.term, c.h) {
      AcceptedInLead(n, c.servers[n], c.h, m, room);
    }
    assert ReplyOk(AppendReply(n, m.leader, m.term, true, |after.log|, NoHint), c'.servers, c'.h);
    QuietEvent(c, c', n, after);
  }

  /** A refusal's hint is good for the leader whose message is refused. */
  lemma RefusalHint(s: Server, m: Message, h: History)
    requires m.Append? && M.AppendOk(m, h) && M.Rooted(s.log, h) && forall t :: t in h.termLogs ==> t > 0
    requires !Accepted(s, m) && HintFor(s, m).index > 0
    ensures m.term >= s.term && HintGood(s.log, h.termLogs[m.term], HintFor(s, m))
  {
    var lead, p := h.termLogs[m.term], m.prevIndex;
    if p <= |s.log| {
      if s.log[..p] == lead[..p] {
        SameEntry(s.log, lead, p - 1);
      }
      assert DiffersAt(s.log, lead, HintFor(s, m), p);
    }
  }

  lemma RefusesSends(c: Cluster, n: Id, m: Message, room: nat)
    requires SendInv(c) && Enabled(c, HearsAppend(n, m, room)) && Facts(c, Appending(c, n, m, room))
    requires M.AppendOk(m, c.h) && !Accepted(c.servers[n], m)
    ensures SendInv(Appending(c, n, m, room))
  {
    var s, c', after := c.servers[n], Appending(c, n, m, room), OnAppend(c.servers[n], m, room);
    var reply := AppendReply(n, m.leader, after.term, false, |after.log|, HintFor(s, m));
    assert M.ServerLogOk(n, s, c.h);
    if HintFor(s, m).index > 0 {
      RefusalHint(s, m, c.h);
    }
    assert c'.servers == c.servers[n := after] && c'.net == c.net + {reply} && c'.h == c.h && after.log == s.log;
    assert ReplyOk(reply, c'.servers, c'.h);
    QuietEvent(c, c', n, after);
  }

  /** A leader that hears a reply of its term goes on from no later than where the follower's log leaves its own. */
  lemma ReplyPeerOk(n: Id, s: Server, f: Server, h: History, m: Message, peer: Id)
    requires m.AppendReply? && m.from == peer && (m.success || m.hint.index > 0) && s.role.Leader? && m.term == s.term
    requires M.ServerLogOk(n, s, h) && M.ServerLogOk(peer, f, h) && AllOk(h)
    requires s.term in h.startLogs && f.term >= m.term
    requires f.term == m.term ==>
      f.log <= h.termLogs[m.term] || (!m.success && HintGood(f.log, h.termLogs[m.term], m.hint))
    ensures m.success ==> forall p :: PeerOk(f, h, s.term, p)
    ensures !m.success ==> PeerOk(f, h, s.term, Backup(s, peer, m.hint) - 1)
  {
    if !m.success && f.term == m.term && !(f.log <= h.termLogs[m.term]) {
      BackupStarts(s, peer, f.log, m.hint, h);
    }
  }

  /** A leader's indices after a reply: only the next index of the peer that replied changes. */
  lemma ReplyState(s: Server, n: Id, m: Message, size: nat)
    requires m.AppendReply?
    ensures var t := OnAppendReply(s, n, m, size);
      && t.log == s.log && t.term >= s.term && t.stood == s.stood && (t.role == s.role || t.role.Follower?)
      && (t.role.Leader? && t.next != s.next ==>
            && t.term == s.term == m.term && m.from < size
            && t.next == s.next[m.from := if m.success then Counted(s, m).next[m.from] else Backup(s, m.from, m.hint)])
      && (t.role.Leader? ==> t.term == s.term)
  {
    if m.term == s.term && s.role.Leader? && m.from < size && m.success {
      E.AdvanceCommitOnlyCommits(Counted(s, m), n, size, |s.log|);
    }
  }

  lemma ReplyPeersOk(c: Cluster, n: Id, m: Message, t: Server)
    requires SendInv(c) && Facts(c, c) && n < |c.servers| && m.AppendReply? && ReplyOk(m, c.servers, c.h)
    requires c.servers[n].role.Leader? && NoopIn(c.servers[n].term, c.h) && m.term == c.servers[n].term
    requires m.from < |c.servers| && (m.success || m.hint.index > 0)
    requires var s := c.servers[n];
      && t.term == s.term && t.stood == s.stood
      && t.next == s.next[m.from := if m.success then Counted(s, m).next[m.from] else Backup(s, m.from, m.hint)]
    ensures forall peer :: 0 <= peer < |c.servers| && peer != n ==>
      PeerOk(c.servers[peer], c.h, t.term, NextIndex(t, peer) - 1)
  {
    var s := c.servers[n];
    assert LeaderOk(n, c.servers, c.h);
    forall peer | 0 <= peer < |c.servers| && peer != n
      ensures PeerOk(c.servers[peer], c.h, t.term, NextIndex(t, peer) - 1)
    {
      if peer == m.from {
        ReplyPeerOk(n, s, c.servers[peer], c.h, m, peer);
      } else {
        assert NextIndex(t, peer) == NextIndex(s, peer);
      }
    }
  }

  lemma ReplySends(c: Cluster, c': Cluster, n: Id, m: Message, t: Server)
    requires SendInv(c) && Facts(c, c') && n < |c.servers| && m in c.net && m.AppendReply?
    requires C.RefusedBy(c.servers[n], m, |c.servers|) ==> m.hint.index > 0
    requires t == OnAppendReply(c.servers[n], n, m, |c.servers|)
    requires c' == c.(servers := c.servers[n := t])
    ensures SendInv(c')
  {
    var s := c.servers[n];
    ReplyState(s, n, m, |c.servers|);
    if t.role.Leader? && t.next != s.next {
      assert LeaderOk(n, c.servers, c.h) && ReplyOk(m, c.servers, c.h) && M.ServerLogOk(n, s, c.h);
      EndsInOwn(n, s, c.h);
      if NoopIn(s.term, c.h) {
        ReplyPeersOk(c, n, m, t);
      }
      StepSends(c, c', n);
    } else {
      QuietEvent(c, c', n, t);
    }
  }

  lemma OtherSends(c: Cluster, ev: Event)
    requires SendInv(c) && Enabled(c, ev) && Facts(c, Next(c, ev))
    requires ev.HearsRequest? || ev.Recounts? || ev.LosesContact? || ev.Restarts?
    ensures SendInv(Next(c, ev))
  {
    OtherState(c, ev);
    QuietEvent(c, Next(c, ev), ev.n, Next(c, ev).servers[ev.n]);
  }

  lemma OtherState(c: Cluster, ev: Event)
    requires Enabled(c, ev) && (ev.HearsRequest? || ev.Recounts? || ev.LosesContact? || ev.Restarts?)
    ensures var s, c' := c.servers[ev.n], Next(c, ev);
      && |c'.servers| == |c.servers| && c'.servers == c.servers[ev.n := c'.servers[ev.n]] && c'.batch == c.batch
      && c'.h.termLogs == c.h.termLogs && c'.h.startLogs == c.h.startLogs
      && (forall m :: m in c'.net && m !in c.net ==> m.VoteReply?)
      && var t := c'.servers[ev.n];
         && (t.log == s.log || t.log == []) && t.term >= s.term && (t.role == s.role || t.role.Follower?)
         && (t.role.Leader? || t.role.Candidate? ==> t.term == s.term && t.stood == s.stood && t.next == s.next)
         && (t.role.Leader? ==> t.matched == s.matched)
  {
    E.AdvanceCommitOnlyCommits(c.servers[ev.n], ev.n, |c.servers|, |c.servers[ev.n].log|);
  }

  /** Nobody has led the term a campaign wins. */
  lemma CampaignIsFresh(c: Cluster, n: Id, full: bool)
    requires M.Inv(c) && Enabled(c, Campaigns(n, full))
    ensures |{n}| >= Majority(|c.servers|) ==> c.servers[n].term + 1 !in c.h.termLogs
  {
    var s, size := c.servers[n], |c.servers|;
    assert E.ServerOk(n, s, c.h, size);
    E.CampaignOk(n, s, c.h, size);
    E.LeadOk(n, Campaign(s, n), Candidacy(c.h, n, s), size, full);
  }

  /** Nobody has led the term a vote decides. */
  lemma VoteIsFresh(c: Cluster, n: Id, m: Message, full: bool)
    requires M.Inv(c) && Enabled(c, HearsVote(n, m, full))
    ensures C.Decides(c.servers[n], m, |c.servers|) ==> c.servers[n].term !in c.h.termLogs
  {
    var s, size := c.servers[n], |c.servers|;
    assert E.ServerOk(n, s, c.h, size) && E.MessageOk(m, c.h);
    if C.Decides(s, m, size) {
      E.LeadOk(n, s.(votes := s.votes + {m.from}), c.h, size, full);
    }
  }

  /** A follower that accepts an append of a leader with its no-op reports only what the two share. */
  ghost predicate Shares(c: Cluster, ev: Event)
    requires Enabled(c, ev)
  {
    ev.HearsAppend? && Accepted(c.servers[ev.n], ev.m) && NoopIn(ev.m.term, c.h) ==>
      InLead(c.servers[ev.n], ev.m, ev.room, c.h)
  }

  lemma AppendSends(c: Cluster, n: Id, m: Message, room: nat)
    requires SendInv(c) && Enabled(c, HearsAppend(n, m, room)) && Facts(c, Appending(c, n, m, room))
    requires M.AppendOk(m, c.h)
    ensures SendInv(Appending(c, n, m, room)) && Shares(c, HearsAppend(n, m, room))
  {
    if Accepted(c.servers[n], m) {
      C.AcceptedState(c, n, m, room);
      AcceptsSends(c, Appending(c, n, m, room), n, m, room, OnAppend(c.servers[n], m, room));
    } else {
      RefusesSends(c, n, m, room);
    }
  }

  lemma InvFacts(c: Cluster, ev: Event)
    requires M.Inv(c) && Enabled(c, ev)
    ensures M.Inv(Next(c, ev)) && Facts(c, Next(c, ev)) && c.h.startLogs.Keys == c.h.termLogs.Keys
  {
    E.NextOk(c, ev);
    M.NextLogs(c, ev);
  }

  /** An event makes no leader of an old term one with its no-op; it may only extend the log of one that is. */
  lemma NextNoLate(c: Cluster, ev: Event)
    requires M.Inv(c) && SendInv(c) && Enabled(c, ev) && C.Minds(c, ev, C.Noop)
    ensures NoLateNoop(c.h, Next(c, ev).h)
  {
    match ev {
      case Campaigns(n, full) => CampaignIsFresh(c, n, full);
      case HearsVote(n, m, full) => VoteIsFresh(c, n, m, full);
      case Submits(n, _) => SubmitterHasNoop(c, n);
      case _ =>
    }
    FreshNoLate(c, ev);
  }

  lemma SubmitterHasNoop(c: Cluster, n: Id)
    requires M.Inv(c) && SendInv(c) && n < |c.servers| && c.servers[n].role.Leader?
    requires LastTerm(c.servers[n].log) == c.servers[n].term
    ensures NoopIn(c.servers[n].term, c.h)
  {
    assert M.ServerLogOk(n, c.servers[n], c.h);
    EndsInOwn(n, c.servers[n], c.h);
  }

  lemma FreshNoLate(c: Cluster, ev: Event)
    requires Enabled(c, ev)
    requires ev.Campaigns? && |{ev.n}| >= Majority(|c.servers|) ==> c.servers[ev.n].term + 1 !in c.h.termLogs
    requires ev.HearsVote? && C.Decides(c.servers[ev.n], ev.m, |c.servers|) ==> c.servers[ev.n].term !in c.h.termLogs
    requires ev.Submits? ==> NoopIn(c.servers[ev.n].term, c.h)
    ensures NoLateNoop(c.h, Next(c, ev).h)
  {
    match ev {
      case Campaigns(n, full) => CampaignState(c, n, full);
      case HearsVote(n, m, full) => CountState(c, n, m, full);
      case _ =>
    }
  }

  /**
   * Any event keeps the invariant if leaders submit only after their no-op and are not sent back without a
   * hint; then whatever a follower accepts after the no-op, it reports only what it shares with the leader.
   */
  lemma NextSends(c: Cluster, ev: Event)
    requires M.Inv(c) && SendInv(c) && Enabled(c, ev) && C.Minds(c, ev, C.Noop) && C.Minds(c, ev, C.Hinted)
    ensures M.Inv(Next(c, ev)) && SendInv(Next(c, ev)) && Shares(c, ev)
  {
    InvFacts(c, ev);
    match ev {
      case Campaigns(n, full) =>
        CampaignIsFresh(c, n, full);
        CampaignsSends(c, n, full);
      case HearsVote(n, m, full) =>
        VoteIsFresh(c, n, m, full);
        HearsVoteSends(c, n, m, full);
      case Submits(n, data) => SubmitsSends(c, n, data);
      case Sends(n, to) => SendsSends(c, n, to);
      case HearsAppend(n, m, room) => AppendSends(c, n, m, room);
      case HearsAppendReply(n, m) => ReplySends(c, Next(c, ev), n, m, Next(c, ev).servers[n]);
      case _ => OtherSends(c, ev);
    }
  }

  // ---- Runs --------------------------------------------------------------

  ghost predicate AllShare(c: Cluster, evs: seq<Event>)
    requires ValidRun(c, evs)
    decreases |evs|
  {
    evs != [] ==> Shares(c, evs[0]) && AllShare(Next(c, evs[0]), evs[1..])
  }

  lemma {:induction false} RunSends(c: Cluster, evs: seq<Event>)
    requires M.Inv(c) && SendInv(c) && ValidRun(c, evs) && F.RunMinds(c, evs, C.Noop) && F.RunMinds(c, evs, C.Hinted)
    ensures M.Inv(Run(c, evs)) && SendInv(Run(c, evs)) && AllShare(c, evs)
    decreases |evs|
  {
    if evs != [] {
      NextSends(c, evs[0]);
      RunSends(Next(c, evs[0]), evs[1..]);
    }
  }

  /**
   * Replies to leaders with their no-op are right in every run, restarts included, in which leaders submit only
   * after it and then hear no refusal without a hint from a server of their term.
   */
  lemma RepliesAreShared(size: nat, cap: nat, batch: nat, evs: seq<Event>)
    requires batch > 0 && ValidRun(NewCluster(size, cap, batch), evs)
    requires F.RunMinds(NewCluster(size, cap, batch), evs, C.Noop)
    requires F.RunMinds(NewCluster(size, cap, batch), evs, C.Hinted)
    ensures AllShare(NewCluster(size, cap, batch), evs)
  {
    RunSends(NewCluster(size, cap, batch), evs);
  }
}
