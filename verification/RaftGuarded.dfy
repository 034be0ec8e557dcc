/**
 * State Machine Safety under conditions of which each is about one kind of event: a leader with
 * its no-op counts right, because what is reported to it is shared with it.
 */
module RaftGuarded {
  import opened Basics
  import opened Raft
  import E = RaftElection
  import M = RaftMatching
  import S = RaftStanding
  import C = RaftCompleteness
  import F = RaftSafety
  import N = RaftNextIndex

  // ---- What a leader counts ----------------------------------------------

  /** What is counted for a leader with its no-op has been in step with it that far. */
  ghost predicate MatchedOk(s: Server, h: History) {
    s.role.Leader? && N.NoopIn(s.term, h) ==> forall i :: i in s.matched ==> C.Acked(h, i, s.term, s.matched[i])
  }

  ghost predicate ReportOk(m: Message, size: nat, h: History) {
    m.AppendReply? && m.success && m.from < size && N.NoopIn(m.term, h) ==> C.Acked(h, m.from, m.term, m.lastIndex)
  }

  ghost predicate CountInv(c: Cluster) {
    && (forall n :: 0 <= n < |c.servers| ==> MatchedOk(c.servers[n], c.h))
    && (forall m :: m in c.net ==> ReportOk(m, |c.servers|, c.h))
  }

  ghost predicate Inv(c: Cluster) {
    C.Inv(c) && N.SendInv(c) && CountInv(c)
  }

  /** An event of one server keeps the counts if that server's part and its new messages are in order. */
  lemma StepCounts(c: Cluster, c': Cluster, n: Id)
    requires CountInv(c) && n < |c.servers| == |c'.servers| && C.AcksGrow(c.h, c'.h, n) && N.NoLateNoop(c.h, c'.h)
    requires forall x :: 0 <= x < |c.servers| && x != n ==> c'.servers[x] == c.servers[x]
    requires forall x :: 0 <= x < |c.servers| ==> M.ServerLogOk(x, c.servers[x], c.h)
    requires forall m :: m in c.net ==> N.ReplyOk(m, c.servers, c.h)
    requires MatchedOk(c'.servers[n], c'.h)
    requires forall m :: m in c'.net && m !in c.net ==> ReportOk(m, |c.servers|, c'.h)
    ensures CountInv(c')
  {
    forall x | 0 <= x < |c.servers| ensures MatchedOk(c'.servers[x], c'.h) {
      if x != n && c.servers[x].role.Leader? && N.NoopIn(c.servers[x].term, c'.h) {
        assert M.ServerLogOk(x, c.servers[x], c.h) && MatchedOk(c.servers[x], c.h);
      }
    }
    forall m | m in c'.net ensures ReportOk(m, |c.servers|, c'.h) {
      if m in c.net && m.AppendReply? && m.success && m.from < |c.servers| && N.NoopIn(m.term, c'.h) {
        assert N.ReplyOk(m, c.servers, c.h) && ReportOk(m, |c.servers|, c.h);
      }
    }
  }

  /** What a reply adds to a leader's counts has been reported. */
  lemma CountedOk(s: Server, n: Id, m: Message, size: nat, h: History)
    requires m.AppendReply? && MatchedOk(s, h) && ReportOk(m, size, h)
    ensures MatchedOk(OnAppendReply(s, n, m, size), h)
  {
    if m.term == s.term && s.role.Leader? && m.from < size && m.success {
      E.AdvanceCommitOnlyCommits(Counted(s, m), n, size, |s.log|);
    }
  }

  /** An entry of its own term makes a leader one with its no-op. */
  lemma OwnEntry(n: Id, s: Server, h: History, k: nat)
    requires s.role.Leader? && s.term > 0 && M.ServerLogOk(n, s, h) && M.TermLogOk(s.term, h)
    requires 0 < k <= |s.log| && TermAt(s.log, k) == s.term
    ensures N.NoopIn(s.term, h)
  {
  }

  /** So what a leader commits by counting, a majority has had in step with it. */
  lemma HoldersHold(n: Id, s: Server, h: History, size: nat, k: nat)
    requires s.role.Leader? && s.term > 0 && M.ServerLogOk(n, s, h) && M.TermLogOk(s.term, h)
    requires C.LeaderOk(n, s, h) && MatchedOk(s, h)
    requires 0 < k <= |s.log| && TermAt(s.log, k) == s.term && |Holders(s, n, size, k)| >= Majority(size)
    ensures C.Committed(h, size, s.term, k)
  {
    OwnEntry(n, s, h, k);
    var q := Holders(s, n, size, k);
    assert E.IsQuorum(q, size) && C.AllAcked(h, q, s.term, k);
  }

  // ---- Events ------------------------------------------------------------

  /** A leader counts right. */
  lemma CountsHeld(c: Cluster, ev: Event)
    requires Enabled(c, ev) && (ev.HearsAppendReply? || ev.Recounts?)
    requires var n, s := ev.n, c.servers[ev.n];
      && (s.role.Follower? || s.term > 0) && M.ServerLogOk(n, s, c.h) && C.LeaderOk(n, s, c.h) && MatchedOk(s, c.h)
      && (s.role.Leader? ==> M.TermLogOk(s.term, c.h))
    requires ev.HearsAppendReply? ==> ReportOk(ev.m, |c.servers|, c.h)
    ensures C.Minds(c, ev, C.Held)
  {
    var n, s, size := ev.n, c.servers[ev.n], |c.servers|;
    var k := Next(c, ev).servers[n].commit;
    if k != s.commit {
      F.AdvanceOnly(c, ev);
      if ev.HearsAppendReply? {
        F.AdvanceResult(Counted(s, ev.m), n, size, |s.log|);
        CountedOk(s, n, ev.m, size, c.h);
        HoldersHold(n, Counted(s, ev.m), c.h, size, k);
      } else {
        F.AdvanceResult(s, n, size, |s.log|);
        HoldersHold(n, s, c.h, size, k);
      }
    }
  }

  /** The reports of an accepted append are true for a leader with its no-op. */
  lemma AcceptCounts(c: Cluster, n: Id, m: Message, room: nat)
    requires Enabled(c, HearsAppend(n, m, room)) && Accepted(c.servers[n], m)
    requires N.Shares(c, HearsAppend(n, m, room))
    ensures var c' := Appending(c, n, m, room);
      && MatchedOk(c'.servers[n], c'.h)
      && forall r :: r in c'.net && r !in c.net ==> ReportOk(r, |c.servers|, c'.h)
  {
    C.AcceptedState(c, n, m, room);
    var s, after := c.servers[n], OnAppend(c.servers[n], m, room);
    if N.NoopIn(m.term, c.h) {
      assert Shared(c.h, n, m, after.log) >= |after.log|;
    }
  }

  lemma AppendCounts(c: Cluster, n: Id, m: Message, room: nat)
    requires CountInv(c) && Enabled(c, HearsAppend(n, m, room)) && N.Shares(c, HearsAppend(n, m, room))
    ensures var c' := Appending(c, n, m, room);
      && MatchedOk(c'.servers[n], c'.h)
      && forall r :: r in c'.net && r !in c.net ==> ReportOk(r, |c.servers|, c'.h)
  {
    assert MatchedOk(c.servers[n], c.h);
    if Accepted(c.servers[n], m) {
      AcceptCounts(c, n, m, room);
    }
  }

  /** Elections start with no counts; everything else keeps them. */
  lemma OwnCounts(c: Cluster, ev: Event)
    requires CountInv(c) && Enabled(c, ev) && N.Shares(c, ev) && N.NoLateNoop(c.h, Next(c, ev).h)
    requires C.AcksGrow(c.h, Next(c, ev).h, ev.n) && M.ServerLogOk(ev.n, c.servers[ev.n], c.h)
    ensures var c' := Next(c, ev);
      && MatchedOk(c'.servers[ev.n], c'.h)
      && forall r :: r in c'.net && r !in c.net ==> ReportOk(r, |c.servers|, c'.h)
  {
    var s := c.servers[ev.n];
    assert MatchedOk(s, c.h);
    match ev {
      case Campaigns(n, full) => N.CampaignState(c, n, full);
      case HearsVote(n, m, full) => N.CountState(c, n, m, full);
      case Submits(n, _) =>
      case Sends(n, to) =>
      case HearsAppend(n, m, room) => AppendCounts(c, n, m, room);
      case HearsAppendReply(n, m) => CountedOk(s, n, m, |c.servers|, c.h);
      case _ => N.OtherState(c, ev);
    }
  }

  lemma NextCounts(c: Cluster, ev: Event)
    requires Inv(c) && Enabled(c, ev) && N.Shares(c, ev) && N.NoLateNoop(c.h, Next(c, ev).h)
    requires C.AcksGrow(c.h, Next(c, ev).h, ev.n) && |Next(c, ev).servers| == |c.servers|
    requires forall x :: 0 <= x < |c.servers| && x != ev.n ==> Next(c, ev).servers[x] == c.servers[x]
    ensures CountInv(Next(c, ev))
  {
    OwnCounts(c, ev);
    StepCounts(c, Next(c, ev), ev.n);
  }

  lemma OneServerActs(c: Cluster, ev: Event)
    requires Enabled(c, ev)
    ensures |Next(c, ev).servers| == |c.servers|
    ensures forall x :: 0 <= x < |c.servers| && x != ev.n ==> Next(c, ev).servers[x] == c.servers[x]
  {
  }

  lemma NextHeld(c: Cluster, ev: Event)
    requires Inv(c) && Enabled(c, ev)
    ensures C.Minds(c, ev, C.Held)
  {
    if ev.HearsAppendReply? || ev.Recounts? {
      assert M.ServerLogOk(ev.n, c.servers[ev.n], c.h) && C.ServerAcksOk(ev.n, c.servers[ev.n], c.h);
      assert MatchedOk(c.servers[ev.n], c.h);
      CountsHeld(c, ev);
    }
  }

  /** A guarded event keeps everything and makes the leader that acts count right. */
  lemma NextGuarded(c: Cluster, ev: Event)
    requires Inv(c) && Enabled(c, ev)
    requires C.Minds(c, ev, C.NoRestart) && C.Minds(c, ev, C.Noop) && C.Minds(c, ev, C.Hinted)
    ensures Inv(Next(c, ev)) && C.Minds(c, ev, C.Held)
  {
    NextHeld(c, ev);
    N.NextSends(c, ev);
    N.NextNoLate(c, ev);
    S.NextOk(c, ev);
    C.NextAcks(c, ev);
    OneServerActs(c, ev);
    NextCounts(c, ev);
  }

  // ---- Runs --------------------------------------------------------------

  /**
   * A run without restarts, in which followers have room for what they commit, leaders submit only after their
   * no-op, and leaders with their no-op hear no hintless refusal from a server of their term.
   */
  ghost predicate GuardedRun(c: Cluster, evs: seq<Event>)
    requires ValidRun(c, evs)
  {
    && F.RunMinds(c, evs, C.NoRestart) && F.RunMinds(c, evs, C.Fits)
    && F.RunMinds(c, evs, C.Noop) && F.RunMinds(c, evs, C.Hinted)
  }

  lemma {:induction false} RunHeld(c: Cluster, evs: seq<Event>)
    requires Inv(c) && ValidRun(c, evs)
    requires F.RunMinds(c, evs, C.NoRestart) && F.RunMinds(c, evs, C.Noop) && F.RunMinds(c, evs, C.Hinted)
    ensures Inv(Run(c, evs)) && F.RunMinds(c, evs, C.Held)
    decreases |evs|
  {
    if evs != [] {
      NextGuarded(c, evs[0]);
      RunHeld(Next(c, evs[0]), evs[1..]);
    }
  }

  lemma StartsGuarded(size: nat, cap: nat, batch: nat)
    requires batch > 0
    ensures Inv(NewCluster(size, cap, batch))
  {
  }

  /**
   * Leaders count right in every run without restarts in which they submit only after their no-op and then
   * hear no refusal without a hint from a server of their term.
   */
  lemma LeadersCountRight(size: nat, cap: nat, batch: nat, evs: seq<Event>)
    requires batch > 0 && ValidRun(NewCluster(size, cap, batch), evs)
    requires var c := NewCluster(size, cap, batch);
      F.RunMinds(c, evs, C.NoRestart) && F.RunMinds(c, evs, C.Noop) && F.RunMinds(c, evs, C.Hinted)
    ensures F.RunMinds(NewCluster(size, cap, batch), evs, C.Held)
  {
    StartsGuarded(size, cap, batch);
    RunHeld(NewCluster(size, cap, batch), evs);
  }

  /**
   * State Machine Safety without a word about replies: over guarded runs, what one server has committed
   * every server that commits there, then or later, commits alike.
   */
  lemma GuardedSafety(size: nat, cap: nat, batch: nat, before: seq<Event>, after: seq<Event>)
    requires batch > 0
    requires ValidRun(NewCluster(size, cap, batch), before) && GuardedRun(NewCluster(size, cap, batch), before)
    requires var c := Run(NewCluster(size, cap, batch), before); ValidRun(c, after) && GuardedRun(c, after)
    ensures var c := Run(NewCluster(size, cap, batch), before); F.CommittedAlike(c, Run(c, after))
  {
    StartsGuarded(size, cap, batch);
    RunHeld(NewCluster(size, cap, batch), before);
    RunHeld(Run(NewCluster(size, cap, batch), before), after);
    F.StateMachineSafety(size, cap, batch, before, after);
  }
}
