/**
 * Why the care is needed: for every log capacity and message size of some width there are runs
 * that take all care but one kind and in which servers commit different entries, or none.
 */
module RaftLimits {
  import opened Basics
  import opened Raft
  import E = RaftElection
  import M = RaftMatching
  import C = RaftCompleteness
  import F = RaftSafety
  import N = RaftNextIndex
  import G = RaftGuarded

  // ---- Runs, one event after the other -----------------------------------

  lemma {:induction false} RunsJoin(c: Cluster, evs: seq<Event>, ev: Event)
    requires ValidRun(c, evs) && Enabled(Run(c, evs), ev)
    ensures ValidRun(c, evs + [ev]) && Run(c, evs + [ev]) == Next(Run(c, evs), ev)
    decreases |evs|
  {
    if evs == [] {
      assert evs + [ev] == [ev] && [ev][1..] == [];
    } else {
      assert (evs + [ev])[0] == evs[0] && (evs + [ev])[1..] == evs[1..] + [ev];
      RunsJoin(Next(c, evs[0]), evs[1..], ev);
    }
  }

  lemma {:induction false} MindsJoin(c: Cluster, evs: seq<Event>, ev: Event, care: C.Care)
    requires ValidRun(c, evs) && Enabled(Run(c, evs), ev) && ValidRun(c, evs + [ev])
    requires F.RunMinds(c, evs, care) && C.Minds(Run(c, evs), ev, care)
    ensures F.RunMinds(c, evs + [ev], care)
    decreases |evs|
  {
    if evs == [] {
      assert evs + [ev] == [ev] && [ev][1..] == [];
    } else {
      assert (evs + [ev])[0] == evs[0] && (evs + [ev])[1..] == evs[1..] + [ev];
      MindsJoin(Next(c, evs[0]), evs[1..], ev, care);
    }
  }

  /** Which kinds of care a run takes, those about replies aside. */
  datatype Kept = Kept(noRestart: bool, fits: bool, noop: bool, hinted: bool)

  const ALL := Kept(true, true, true, true)

  ghost predicate Keeps(c: Cluster, evs: seq<Event>, k: Kept)
    requires ValidRun(c, evs)
  {
    && (k.noRestart ==> F.RunMinds(c, evs, C.NoRestart)) && (k.fits ==> F.RunMinds(c, evs, C.Fits))
    && (k.noop ==> F.RunMinds(c, evs, C.Noop)) && (k.hinted ==> F.RunMinds(c, evs, C.Hinted))
  }

  ghost predicate EventKeeps(c: Cluster, ev: Event, k: Kept)
    requires Enabled(c, ev)
  {
    && (k.noRestart ==> C.Minds(c, ev, C.NoRestart)) && (k.fits ==> C.Minds(c, ev, C.Fits))
    && (k.noop ==> C.Minds(c, ev, C.Noop)) && (k.hinted ==> C.Minds(c, ev, C.Hinted))
  }

  /** A run from c, with the care it takes, leads to d. */
  ghost predicate Leads(c: Cluster, evs: seq<Event>, d: Cluster, k: Kept) {
    ValidRun(c, evs) && Run(c, evs) == d && Keeps(c, evs, k)
  }

  lemma Then(c: Cluster, evs: seq<Event>, d: Cluster, ev: Event, k: Kept) returns (longer: seq<Event>)
    requires Leads(c, evs, d, k) && Enabled(d, ev) && EventKeeps(d, ev, k)
    ensures longer == evs + [ev] && Leads(c, longer, Next(d, ev), k)
  {
    longer := evs + [ev];
    RunsJoin(c, evs, ev);
    if k.noRestart { MindsJoin(c, evs, ev, C.NoRestart); }
    if k.fits { MindsJoin(c, evs, ev, C.Fits); }
    if k.noop { MindsJoin(c, evs, ev, C.Noop); }
    if k.hinted { MindsJoin(c, evs, ev, C.Hinted); }
  }

  // ---- Elections ---------------------------------------------------------

  lemma Stands(d: Cluster, n: Id, full: bool)
    requires Enabled(d, Campaigns(n, full)) && 2 <= |d.servers|
    ensures var s, e := d.servers[n], Next(d, Campaigns(n, full));
      && e.servers == d.servers[n := Campaign(s, n)] && e.cap == d.cap && e.batch == d.batch
      && e.net == d.net + {RequestVote(s.term + 1, n, |s.log|, LastTerm(s.log))}
  {
    assert |{n}| == 1;
  }

  lemma Votes(d: Cluster, v: Id, m: Message)
    requires Enabled(d, HearsRequest(v, m)) && d.servers[v].term < m.term
    requires UpToDate(m.lastTerm, m.lastIndex, d.servers[v].log)
    ensures var e := Next(d, HearsRequest(v, m));
      && e.servers == d.servers[v := StepDown(d.servers[v], m.term).(votedFor := Some(m.candidate))]
      && e.cap == d.cap && e.batch == d.batch && e.net == d.net + {VoteReply(v, m.candidate, m.term, true)}
  {
  }

  lemma Wins(d: Cluster, n: Id, m: Message, full: bool)
    requires Enabled(d, HearsVote(n, m, full)) && |d.servers| <= 3 && m.granted && m.from < |d.servers|
    requires d.servers[n].role.Candidate? && d.servers[n].term == m.term && d.servers[n].votes == {n} && m.from != n
    ensures var e := Next(d, HearsVote(n, m, full));
      && e.servers == d.servers[n := Lead(d.servers[n].(votes := {n, m.from}), full)]
      && e.net == d.net && e.cap == d.cap && e.batch == d.batch
  {
    assert {n} + {m.from} == {n, m.from} && |{n, m.from}| == 2;
  }

  lemma StandFor(c: Cluster, evs: seq<Event>, d: Cluster, n: Id, full: bool, k: Kept)
    returns (longer: seq<Event>, e: Cluster)
    requires Leads(c, evs, d, k) && Enabled(d, Campaigns(n, full)) && 2 <= |d.servers|
    ensures Leads(c, longer, e, k) && e.cap == d.cap && e.batch == d.batch
    ensures var s := d.servers[n];
      && e.servers == d.servers[n := Campaign(s, n)]
      && e.net == d.net + {RequestVote(s.term + 1, n, |s.log|, LastTerm(s.log))}
  {
    Stands(d, n, full);
    longer := Then(c, evs, d, Campaigns(n, full), k);
    e := Next(d, Campaigns(n, full));
  }

  lemma VoteFor(c: Cluster, evs: seq<Event>, d: Cluster, v: Id, m: Message, k: Kept)
    returns (longer: seq<Event>, e: Cluster)
    requires Leads(c, evs, d, k) && Enabled(d, HearsRequest(v, m)) && d.servers[v].term < m.term
    requires UpToDate(m.lastTerm, m.lastIndex, d.servers[v].log)
    ensures Leads(c, longer, e, k) && e.cap == d.cap && e.batch == d.batch
    ensures e.servers == d.servers[v := StepDown(d.servers[v], m.term).(votedFor := Some(m.candidate))]
    ensures e.net == d.net + {VoteReply(v, m.candidate, m.term, true)}
  {
    Votes(d, v, m);
    longer := Then(c, evs, d, HearsRequest(v, m), k);
    e := Next(d, HearsRequest(v, m));
  }

  lemma WinFor(c: Cluster, evs: seq<Event>, d: Cluster, n: Id, m: Message, full: bool, k: Kept)
    returns (longer: seq<Event>, e: Cluster)
    requires Leads(c, evs, d, k) && Enabled(d, HearsVote(n, m, full)) && |d.servers| == 3
    requires m.granted && m.from < 3 && m.from != n
    requires d.servers[n].role.Candidate? && d.servers[n].term == m.term && d.servers[n].votes == {n}
    ensures Leads(c, longer, e, k) && e.net == d.net && e.cap == d.cap && e.batch == d.batch
    ensures e.servers == d.servers[n := Lead(d.servers[n].(votes := {n, m.from}), full)]
  {
    Wins(d, n, m, full);
    longer := Then(c, evs, d, HearsVote(n, m, full), k);
    e := Next(d, HearsVote(n, m, full));
  }

  /** Server n stands and wins with the vote of v. */
  lemma Elect(c: Cluster, evs: seq<Event>, d: Cluster, n: Id, v: Id, full: bool, k: Kept)
    returns (longer: seq<Event>, e: Cluster)
    requires Leads(c, evs, d, k) && |d.servers| == 3 && n < 3 && v < 3 && n != v
    requires !d.servers[n].role.Leader? && MayBe(d.servers[n], d.cap, full)
    requires d.servers[v].term <= d.servers[n].term
    requires UpToDate(LastTerm(d.servers[n].log), |d.servers[n].log|, d.servers[v].log)
    ensures Leads(c, longer, e, k) && d.net <= e.net && e.cap == d.cap && e.batch == d.batch
    ensures var won := Campaign(d.servers[n], n).(votes := {n, v});
      e.servers == d.servers[v := StepDown(d.servers[v], won.term).(votedFor := Some(n))][n := Lead(won, full)]
  {
    var s := d.servers[n];
    longer, e := StandFor(c, evs, d, n, full, k);
    longer, e := VoteFor(c, longer, e, v, RequestVote(s.term + 1, n, |s.log|, LastTerm(s.log)), k);
    longer, e := WinFor(c, longer, e, n, VoteReply(v, n, s.term + 1, true), full, k);
  }

  // ---- Replication -------------------------------------------------------

  /** Leader n sends what is next to another server. */
  lemma Send(c: Cluster, evs: seq<Event>, d: Cluster, n: Id, to: Id, k: Kept)
    returns (longer: seq<Event>, e: Cluster, m: Message)
    requires Leads(c, evs, d, k) && Enabled(d, Sends(n, to))
    ensures m == NextAppend(d.servers[n], n, to, d.batch)
    ensures Leads(c, longer, e, k) && e.servers == d.servers && e.net == d.net + {m}
    ensures e.cap == d.cap && e.batch == d.batch
  {
    m := NextAppend(d.servers[n], n, to, d.batch);
    longer := Then(c, evs, d, Sends(n, to), k);
    e := Next(d, Sends(n, to));
  }

  /** A server hears an append and replies. */
  lemma Receive(c: Cluster, evs: seq<Event>, d: Cluster, m: Message, room: nat, k: Kept)
    returns (longer: seq<Event>, e: Cluster)
    requires Leads(c, evs, d, k) && m.Append? && m.to < |d.servers| && Enabled(d, HearsAppend(m.to, m, room))
    requires k.fits && Accepted(d.servers[m.to], m) ==> C.Adopted(m) <= |OnAppend(d.servers[m.to], m, room).log|
    ensures Leads(c, longer, e, k) && d.net <= e.net && e.cap == d.cap && e.batch == d.batch
    ensures var s, after := d.servers[m.to], OnAppend(d.servers[m.to], m, room);
      && e.servers == d.servers[m.to := after]
      && AppendReply(m.to, m.leader, after.term, Accepted(s, m), |after.log|, HintFor(s, m)) in e.net
  {
    longer := Then(c, evs, d, HearsAppend(m.to, m, room), k);
    e := Next(d, HearsAppend(m.to, m, room));
  }

  /** A leader hears a reply. */
  lemma Hear(c: Cluster, evs: seq<Event>, d: Cluster, n: Id, m: Message, k: Kept)
    returns (longer: seq<Event>, e: Cluster)
    requires Leads(c, evs, d, k) && Enabled(d, HearsAppendReply(n, m))
    requires k.hinted && C.RefusedBy(d.servers[n], m, |d.servers|) ==> m.hint.index > 0
    ensures Leads(c, longer, e, k) && e.net == d.net && e.cap == d.cap && e.batch == d.batch
    ensures e.servers == d.servers[n := OnAppendReply(d.servers[n], n, m, |d.servers|)]
  {
    longer := Then(c, evs, d, HearsAppendReply(n, m), k);
    e := Next(d, HearsAppendReply(n, m));
  }

  lemma SubmitOne(c: Cluster, evs: seq<Event>, d: Cluster, n: Id, k: Kept)
    returns (longer: seq<Event>, e: Cluster)
    requires Leads(c, evs, d, k) && Enabled(d, Submits(n, []))
    requires k.noop ==> LastTerm(d.servers[n].log) == d.servers[n].term
    ensures Leads(c, longer, e, k) && e.net == d.net && e.cap == d.cap && e.batch == d.batch
    ensures e.servers == d.servers[n := Submit(d.servers[n], [])]
  {
    longer := Then(c, evs, d, Submits(n, []), k);
    e := Next(d, Submits(n, []));
  }

  /** With one peer of two holding the whole log, a leader commits all of it if it ends in its own term. */
  lemma CommitsAll(s: Server, n: Id, m: Message)
    requires m.AppendReply? && m.success && m.from < 3 && n < 3 && m.from != n && m.lastIndex >= |s.log|
    requires s.role.Leader? && m.term == s.term && s.commit <= |s.log| && s.log != [] && LastTerm(s.log) == s.term
    ensures OnAppendReply(s, n, m, 3) == Counted(s, m).(commit := |s.log|)
  {
    E.SubsetSize({n, m.from}, Holders(Counted(s, m), n, 3, |s.log|));
  }

  lemma MergeAtEnd(log: seq<Entry>, x: Entry, room: nat)
    ensures Merge(log, |log|, [x], room) == if |log| < room then log + [x] else log
  {
    assert [x][1..] == [];
  }

  /** Leader n sends a server what is next, and the server replies. */
  lemma Deliver(c: Cluster, evs: seq<Event>, d: Cluster, n: Id, to: Id, room: nat, k: Kept)
    returns (longer: seq<Event>, e: Cluster, reply: Message)
    requires Leads(c, evs, d, k) && Enabled(d, Sends(n, to))
    requires var m, s := NextAppend(d.servers[n], n, to, d.batch), d.servers[to];
      && d.cap <= room <= s.commit + d.cap
      && (k.fits && Accepted(s, m) ==> C.Adopted(m) <= |OnAppend(s, m, room).log|)
    ensures Leads(c, longer, e, k) && d.net <= e.net && e.cap == d.cap && e.batch == d.batch && reply in e.net
    ensures var m, s := NextAppend(d.servers[n], n, to, d.batch), d.servers[to];
      var after := OnAppend(s, m, room);
      && e.servers == d.servers[to := after]
      && reply == AppendReply(to, n, after.term, Accepted(s, m), |after.log|, HintFor(s, m))
  {
    var m: Message;
    longer, e, m := Send(c, evs, d, n, to, k);
    longer, e := Receive(c, longer, e, m, room, k);
    var s := d.servers[to];
    reply := AppendReply(to, n, OnAppend(s, m, room).term, Accepted(s, m), |OnAppend(s, m, room).log|, HintFor(s, m));
  }

  /** Leader n sends a server what is next, which is accepted and reported back. */
  lemma Replicate(c: Cluster, evs: seq<Event>, d: Cluster, n: Id, to: Id, room: nat, k: Kept)
    returns (longer: seq<Event>, e: Cluster, reply: Message)
    requires Leads(c, evs, d, k) && |d.servers| == 3 && Enabled(d, Sends(n, to))
    requires var m, s := NextAppend(d.servers[n], n, to, d.batch), d.servers[to];
      && Accepted(s, m) && d.cap <= room <= s.commit + d.cap
      && (k.fits ==> C.Adopted(m) <= |OnAppend(s, m, room).log|)
    ensures Leads(c, longer, e, k) && d.net <= e.net && e.cap == d.cap && e.batch == d.batch
    ensures var after := OnAppend(d.servers[to], NextAppend(d.servers[n], n, to, d.batch), room);
      && reply == AppendReply(to, n, d.servers[n].term, true, |after.log|, NoHint)
      && e.servers == d.servers[to := after][n := OnAppendReply(d.servers[n], n, reply, 3)] && reply in e.net
  {
    longer, e, reply := Deliver(c, evs, d, n, to, room, k);
    longer, e := Hear(c, longer, e, n, reply, k);
  }

  /** A follower that lacks the last entry of the leader's log. */
  ghost predicate Lacks(s: Server, t: Server, n: Id, to: Id) {
    && s.role.Leader? && s.log != [] && LastTerm(s.log) == s.term && s.commit <= |s.log|
    && NextIndex(s, to) == |s.log| && t.log == s.log[..|s.log| - 1] && t.term <= s.term
  }

  /** The message for such a follower: the last entry. */
  lemma LastPiece(s: Server, t: Server, n: Id, to: Id, batch: nat)
    requires Lacks(s, t, n, to) && batch > 0
    ensures var m := NextAppend(s, n, to, batch);
      && m == Append(n, to, s.term, |s.log| - 1, TermAt(s.log, |s.log| - 1), [s.log[|s.log| - 1]], s.commit)
      && Accepted(t, m)
  {
    assert s.log[|s.log| - 1..] == [s.log[|s.log| - 1]];
  }

  function Max(a: nat, b: nat): nat {
    if a < b then b else a
  }

  /** It takes the entry, and the commit index with it, if it has room, and the commit index alone if not. */
  lemma TakesLast(s: Server, t: Server, n: Id, to: Id, batch: nat, room: nat)
    requires Lacks(s, t, n, to) && batch > 0
    ensures OnAppend(t, NextAppend(s, n, to, batch), room)
         == StepDown(t, s.term).(role := Follower, log := if |s.log| <= room then s.log else t.log,
                                 commit := Max(t.commit, s.commit))
  {
    LastPiece(s, t, n, to, batch);
    MergeAtEnd(t.log, s.log[|s.log| - 1], room);
    assert t.log + [s.log[|s.log| - 1]] == s.log;
  }

  /** Bring a follower up to the leader's log; that makes a majority. */
  lemma Extend(c: Cluster, evs: seq<Event>, d: Cluster, n: Id, to: Id, room: nat, k: Kept)
    returns (longer: seq<Event>, e: Cluster)
    requires Leads(c, evs, d, k) && |d.servers| == 3 && n < 3 && to < 3 && n != to && d.batch > 0
    requires Lacks(d.servers[n], d.servers[to], n, to) && |d.servers[n].log| <= room
    requires d.cap <= room <= d.servers[to].commit + d.cap
    ensures Leads(c, longer, e, k) && d.net <= e.net && e.cap == d.cap && e.batch == d.batch
    ensures |e.servers| == 3
    ensures var s, t, s' := d.servers[n], d.servers[to], e.servers[n];
      && e.servers == d.servers[
           to := StepDown(t, s.term).(role := Follower, log := s.log, commit := Max(t.commit, s.commit))][n := s']
      && s' == s.(commit := |s.log|, matched := s'.matched, next := s.next[to := |s.log| + 1])
  {
    var s, t := d.servers[n], d.servers[to];
    LastPiece(s, t, n, to, d.batch);
    TakesLast(s, t, n, to, d.batch, room);
    var reply: Message;
    longer, e, reply := Replicate(c, evs, d, n, to, room, k);
    CommitsAll(s, n, reply);
  }

  // ---- One leader, everybody in step -------------------------------------

  ghost predicate OfTermOne(log: seq<Entry>) {
    log != [] && forall i :: 0 <= i < |log| ==> log[i].term == 1
  }

  /** Server 0 leads term 1, all have its log, and 0 and 2 have committed all of it. */
  ghost predicate Led(d: Cluster, log: seq<Entry>) {
    && |d.servers| == 3 && OfTermOne(log) && d.batch > 0
    && d.servers[0].role.Leader? && d.servers[0].commit == |log|
    && NextIndex(d.servers[0], 1) == NextIndex(d.servers[0], 2) == |log| + 1
    && !d.servers[1].role.Leader? && d.servers[1].commit == |log| - 1
    && !d.servers[2].role.Leader? && d.servers[2].commit == |log|
    && forall n :: 0 <= n < 3 ==> d.servers[n].term == 1 && d.servers[n].log == log
  }

  /** A leader that has submitted brings both followers up to its log, server 1 first. */
  lemma ExtendBoth(c: Cluster, evs: seq<Event>, d: Cluster, k: Kept) returns (longer: seq<Event>, e: Cluster)
    requires Leads(c, evs, d, k) && |d.servers| == 3 && d.batch > 0
    requires Lacks(d.servers[0], d.servers[1], 0, 1) && Lacks(d.servers[0], d.servers[2], 0, 2)
    requires d.servers[0].term == 1 && OfTermOne(d.servers[0].log) && |d.servers[0].log| <= d.cap
    requires d.servers[1].commit <= d.servers[0].commit == |d.servers[0].log| - 1
    requires d.servers[2].commit <= |d.servers[0].log|
    ensures Leads(c, longer, e, k) && Led(e, d.servers[0].log) && e.cap == d.cap && e.batch == d.batch
  {
    longer, e := Extend(c, evs, d, 0, 1, d.cap, k);
    longer, e := Extend(c, longer, e, 0, 2, d.cap, k);
  }

  /** The first leader and its no-op. */
  lemma FirstLed(c: Cluster, cap: nat, batch: nat, k: Kept) returns (evs: seq<Event>, d: Cluster)
    requires c == NewCluster(3, cap, batch) && cap > 0 && batch > 0
    ensures Leads(c, evs, d, k) && Led(d, [Entry(1, [])]) && d.cap == cap && d.batch == batch
  {
    evs, d := Elect(c, [], c, 0, 1, false, k);
    assert d.servers[0].log == [Entry(1, [])];
    evs, d := ExtendBoth(c, evs, d, k);
  }

  /** And so on, up to any length the logs have room for. */
  lemma {:induction false} LedUpTo(c: Cluster, cap: nat, batch: nat, len: nat, k: Kept)
    returns (evs: seq<Event>, d: Cluster, log: seq<Entry>)
    requires c == NewCluster(3, cap, batch) && batch > 0 && 0 < len <= cap
    ensures Leads(c, evs, d, k) && Led(d, log) && |log| == len && d.cap == cap && d.batch == batch
  {
    if len == 1 {
      evs, d := FirstLed(c, cap, batch, k);
      log := [Entry(1, [])];
    } else {
      evs, d, log := LedUpTo(c, cap, batch, len - 1, k);
      evs, d := SubmitOne(c, evs, d, 0, k);
      log := log + [Entry(1, [])];
      evs, d := ExtendBoth(c, evs, d, k);
    }
  }

  // ---- A full follower ---------------------------------------------------

  lemma {:induction false} MergeAppends(log: seq<Entry>, entries: seq<Entry>, room: nat)
    requires |log| + |entries| <= room
    ensures Merge(log, |log|, entries, room) == log + entries
    decreases |entries|
  {
    if entries != [] {
      MergeAppends(log + [entries[0]], entries[1..], room);
      assert log + entries == log + [entries[0]] + entries[1..];
    }
  }

  /** A message that starts past the end of a follower's log is refused, with the end of that log. */
  lemma Refused(c: Cluster, evs: seq<Event>, d: Cluster, n: Id, to: Id, k: Kept)
    returns (longer: seq<Event>, e: Cluster)
    requires Leads(c, evs, d, k) && |d.servers| == 3 && Enabled(d, Sends(n, to))
    requires d.servers[to].term <= d.servers[n].term && |d.servers[to].log| + 1 < NextIndex(d.servers[n], to)
    ensures Leads(c, longer, e, k) && e.cap == d.cap && e.batch == d.batch
    ensures var s, t := d.servers[n], d.servers[to];
      e.servers == d.servers[to := StepDown(t, s.term).(role := Follower)][n := s.(next := s.next[to := |t.log| + 1])]
  {
    var s, t := d.servers[n], d.servers[to];
    var reply: Message;
    RefusesPiece(s, t, n, to, d.batch, t.commit + d.cap);
    longer, e, reply := Deliver(c, evs, d, n, to, t.commit + d.cap, k);
    BacksUp(s, n, reply);
    longer, e := Hear(c, longer, e, n, reply, k);
  }

  lemma RefusesPiece(s: Server, t: Server, n: Id, to: Id, batch: nat, room: nat)
    requires t.term <= s.term && |t.log| + 1 < NextIndex(s, to) <= |s.log| + 1
    ensures var m := NextAppend(s, n, to, batch);
      && !Accepted(t, m) && OnAppend(t, m, room) == StepDown(t, s.term).(role := Follower)
      && HintFor(t, m) == Hint(|t.log| + 1, 0)
  {
  }

  lemma BacksUp(s: Server, n: Id, m: Message)
    requires m.AppendReply? && !m.success && s.role.Leader? && m.term == s.term && m.from < 3
    requires m.hint.term == 0 && m.hint.index > 0
    ensures OnAppendReply(s, n, m, 3) == s.(next := s.next[m.from := m.hint.index])
  {
  }

  /** A follower whose log is the beginning of the leader's, and the leader knows how far. */
  ghost predicate Follows(s: Server, t: Server, to: Id) {
    && s.role.Leader? && t.term <= s.term && |t.log| <= |s.log| && t.log == s.log[..|t.log|]
    && NextIndex(s, to) == |t.log| + 1 && s.commit <= |s.log|
  }

  /** What such a follower takes of the next message: the entries, and the commit index as far as they go. */
  lemma TakesPiece(s: Server, t: Server, n: Id, to: Id, batch: nat, room: nat)
    requires Follows(s, t, to) && batch > 0 && |s.log| <= room
    ensures var m := NextAppend(s, n, to, batch);
      var end := if |s.log| - |t.log| < batch then |s.log| else |t.log| + batch;
      && Accepted(t, m) && C.Adopted(m) <= end
      && OnAppend(t, m, room) == StepDown(t, s.term).(role := Follower, log := s.log[..end],
                                                      commit := Max(t.commit, if s.commit < end then s.commit else end))
  {
    var m := NextAppend(s, n, to, batch);
    var end := if |s.log| - |t.log| < batch then |s.log| else |t.log| + batch;
    assert m == Append(n, to, s.term, |t.log|, TermAt(s.log, |t.log|), s.log[|t.log|..end], s.commit);
    MergePiece(t.log, s.log, end, room);
  }

  /** Merging the next piece of a log of which one has the beginning. */
  lemma MergePiece(log: seq<Entry>, lead: seq<Entry>, end: nat, room: nat)
    requires |log| <= end <= |lead| && end <= room && log == lead[..|log|]
    ensures Merge(log, |log|, lead[|log|..end], room) == lead[..end]
    ensures TermAt(log, |log|) == TermAt(lead, |log|)
  {
    MergeAppends(log, lead[|log|..end], room);
    assert log + lead[|log|..end] == lead[..end];
  }

  /** A new leader waits for its only own entry, the last one, to be counted; nobody but one peer has been. */
  ghost predicate Waits(s: Server, to: Id) {
    && s.role.Leader? && s.log != [] && LastTerm(s.log) == s.term && s.commit == 0
    && (forall i :: 0 <= i < |s.log| - 1 ==> s.log[i].term != s.term)
    && (forall i :: i in s.matched ==> i == to && s.matched[i] < |s.log|)
  }

  lemma {:induction false} NothingOwn(s: Server, n: Id, k: nat)
    requires k <= |s.log| && s.commit == 0 && forall i :: 0 <= i < k ==> s.log[i].term != s.term
    ensures AdvanceCommit(s, n, 3, k) == s
    decreases k
  {
    if k > 0 {
      NothingOwn(s, n, k - 1);
    }
  }

  /** Short of its last entry being counted it commits nothing. */
  lemma StillWaits(s: Server, n: Id, to: Id)
    requires Waits(s, to) && n < 3
    ensures AdvanceCommit(s, n, 3, |s.log|) == s
  {
    var q := Holders(s, n, 3, |s.log|);
    E.SubsetSize(q, {n});
    NothingOwn(s, n, |s.log| - 1);
  }

  /** What the leader makes of the next reply: it goes on waiting, or counts the end of its log. */
  lemma CountsPiece(s: Server, n: Id, m: Message, to: Id)
    requires m.AppendReply? && m.success && m.from == to < 3 && n < 3 && to != n && m.term == s.term
    requires s.role.Leader? && s.log != [] && LastTerm(s.log) == s.term && m.lastIndex <= |s.log|
    requires s.commit == |s.log| || Waits(s, to)
    ensures var t := OnAppendReply(s, n, m, 3);
      && t == s.(commit := t.commit, matched := Counted(s, m).matched, next := Counted(s, m).next)
      && (s.commit == |s.log| || m.lastIndex == |s.log| ==> t.commit == |s.log|)
      && (s.commit < |s.log| && m.lastIndex < |s.log| ==> Waits(t, to))
  {
    if m.lastIndex == |s.log| {
      CommitsAll(s, n, m);
    } else if s.commit < |s.log| {
      StillWaits(Counted(s, m), n, to);
    }
  }

  /** One message and its reply. */
  lemma CatchUpOnce(c: Cluster, evs: seq<Event>, d: Cluster, n: Id, to: Id, k: Kept)
    returns (longer: seq<Event>, e: Cluster, end: nat)
    requires Leads(c, evs, d, k) && |d.servers| == 3 && n < 3 && to < 3 && n != to && d.batch > 0
    requires CanCatchUp(d.servers[n], d.servers[to], to, d.cap)
    ensures Leads(c, longer, e, k) && |e.servers| == 3 && e.cap == d.cap && e.batch == d.batch
    ensures |d.servers[to].log| < end <= |d.servers[n].log|
    ensures var s, t, s' := d.servers[n], d.servers[to], e.servers[n];
      && e.servers == d.servers[
           to := StepDown(t, s.term).(role := Follower, log := s.log[..end],
                                      commit := Max(t.commit, if s.commit < end then s.commit else end))][n := s']
      && s' == s.(commit := s'.commit, matched := s'.matched, next := s.next[to := end + 1])
      && (s.commit == |s.log| || end == |s.log| ==> s'.commit == |s.log|)
      && (end < |s.log| ==> CanCatchUp(s', e.servers[to], to, d.cap) && (s.commit < |s.log| ==> s'.commit == s.commit))
  {
    var s, t := d.servers[n], d.servers[to];
    TakesPiece(s, t, n, to, d.batch, d.cap);
    var reply: Message;
    longer, e, reply := Replicate(c, evs, d, n, to, d.cap, k);
    CountsPiece(s, n, reply, to);
    end := reply.lastIndex;
  }

  ghost predicate CanCatchUp(s: Server, t: Server, to: Id, cap: nat) {
    && Follows(s, t, to) && s.log != [] && LastTerm(s.log) == s.term && |s.log| <= cap && |t.log| < |s.log|
    && (s.commit == |s.log| || Waits(s, to))
  }

  /** Bring a follower up to the leader's log, message by message. */
  lemma {:induction false} CatchUp(c: Cluster, evs: seq<Event>, d: Cluster, n: Id, to: Id, k: Kept)
    returns (longer: seq<Event>, e: Cluster)
    requires Leads(c, evs, d, k) && |d.servers| == 3 && n < 3 && to < 3 && n != to && d.batch > 0
    requires CanCatchUp(d.servers[n], d.servers[to], to, d.cap)
    ensures Leads(c, longer, e, k) && |e.servers| == 3 && e.cap == d.cap && e.batch == d.batch
    ensures forall x :: 0 <= x < 3 && x != n && x != to ==> e.servers[x] == d.servers[x]
    ensures var s, t, s' := d.servers[n], d.servers[to], e.servers[n];
      && s' == s.(commit := |s.log|, matched := s'.matched, next := s'.next) && NextIndex(s', to) == |s.log| + 1
      && (forall x :: x != to ==> NextIndex(s', x) == NextIndex(s, x))
      && e.servers[to] == StepDown(t, s.term).(role := Follower, log := s.log, commit := Max(t.commit, s.commit))
    decreases |d.servers[n].log| - |d.servers[to].log|
  {
    var end: nat;
    longer, e, end := CatchUpOnce(c, evs, d, n, to, k);
    if end < |d.servers[n].log| {
      longer, e := CatchUp(c, longer, e, n, to, k);
    } else {
      assert d.servers[n].log[..end] == d.servers[n].log;
    }
  }

  /** Server 0 alone, leading term 1, submits up to a length. */
  lemma {:induction false} SubmitUpTo(c: Cluster, evs: seq<Event>, d: Cluster, len: nat, k: Kept)
    returns (longer: seq<Event>, e: Cluster)
    requires Leads(c, evs, d, k) && |d.servers| == 3 && d.servers[0].role.Leader? && d.servers[0].term == 1
    requires OfTermOne(d.servers[0].log) && |d.servers[0].log| <= len <= d.cap
    ensures Leads(c, longer, e, k) && e.cap == d.cap && e.batch == d.batch
    ensures |e.servers| == 3 && e.servers == d.servers[0 := d.servers[0].(log := e.servers[0].log)]
    ensures OfTermOne(e.servers[0].log) && |e.servers[0].log| == len
    decreases len - |d.servers[0].log|
  {
    if |d.servers[0].log| == len {
      longer, e := evs, d;
    } else {
      longer, e := SubmitOne(c, evs, d, 0, k);
      longer, e := SubmitUpTo(c, longer, e, len, k);
    }
  }

  lemma LoseContact(c: Cluster, evs: seq<Event>, d: Cluster, n: Id, k: Kept)
    returns (longer: seq<Event>, e: Cluster)
    requires Leads(c, evs, d, k) && Enabled(d, LosesContact(n))
    ensures Leads(c, longer, e, k) && e.net == d.net && e.cap == d.cap && e.batch == d.batch
    ensures e.servers == d.servers[n := d.servers[n].(role := Follower)]
  {
    longer := Then(c, evs, d, LosesContact(n), k);
    e := Next(d, LosesContact(n));
  }

  /** Server 0 leads with a log as long as the capacity, nothing of it committed, and nobody has any of it. */
  ghost predicate Alone(d: Cluster) {
    && |d.servers| == 3 && d.batch > 0 && |d.servers[0].log| == d.cap > 0
    && Waits(d.servers[0], 1) && d.servers[0].matched == map[]
    && NextIndex(d.servers[0], 1) == NextIndex(d.servers[0], 2) == d.cap
    && forall n :: 1 <= n < 3 ==>
         d.servers[n].log == [] && d.servers[n].commit == 0 && d.servers[n].term <= d.servers[0].term
  }

  /** Elected with nobody having anything of its log, which the no-op fills. */
  lemma StandAlone(c: Cluster, evs: seq<Event>, d: Cluster, k: Kept) returns (longer: seq<Event>, e: Cluster)
    requires Leads(c, evs, d, k) && |d.servers| == 3 && d.batch > 0 && d.cap == |d.servers[0].log| + 1
    requires !d.servers[0].role.Leader? && d.servers[0].commit == 0
    requires forall i :: 0 <= i < |d.servers[0].log| ==> d.servers[0].log[i].term <= d.servers[0].term
    requires forall n :: 1 <= n < 3 ==>
      d.servers[n].log == [] && d.servers[n].commit == 0 && d.servers[n].term <= d.servers[0].term
    ensures Leads(c, longer, e, k) && Alone(e) && e.cap == d.cap && e.batch == d.batch
  {
    longer, e := Elect(c, evs, d, 0, 1, false, k);
  }

  /** It takes two elections to have a log of old, uncommitted entries with one new one at the end. */
  lemma GoAlone(c: Cluster, cap: nat, batch: nat, k: Kept) returns (evs: seq<Event>, d: Cluster)
    requires c == NewCluster(3, cap, batch) && cap > 0 && batch > 0
    ensures Leads(c, evs, d, k) && Alone(d) && d.cap == cap && d.batch == batch
  {
    evs, d := [], c;
    if cap > 1 {
      evs, d := Elect(c, evs, d, 0, 1, false, k);
      evs, d := SubmitUpTo(c, evs, d, cap - 1, k);
      evs, d := LoseContact(c, evs, d, 0, k);
    }
    evs, d := StandAlone(c, evs, d, k);
  }

  /** A server without a log is told so and brought up to the leader's. */
  lemma BringUp(c: Cluster, evs: seq<Event>, d: Cluster, to: Id, k: Kept) returns (longer: seq<Event>, e: Cluster)
    requires Leads(c, evs, d, k) && |d.servers| == 3 && 1 <= to < 3 && d.batch > 0 && d.cap > 0
    requires var s, t := d.servers[0], d.servers[to];
      && s.role.Leader? && |s.log| == d.cap && LastTerm(s.log) == s.term && NextIndex(s, to) == d.cap
      && t.log == [] && t.commit == 0 && t.term <= s.term && (s.commit == |s.log| || Waits(s, to))
    ensures Leads(c, longer, e, k) && |e.servers| == 3 && e.cap == d.cap && e.batch == d.batch
    ensures forall x :: 1 <= x < 3 && x != to ==> e.servers[x] == d.servers[x]
    ensures var s, s', t' := d.servers[0], e.servers[0], e.servers[to];
      && s' == s.(commit := |s.log|, matched := s'.matched, next := s'.next) && NextIndex(s', to) == |s.log| + 1
      && (forall x :: x != to ==> NextIndex(s', x) == NextIndex(s, x))
      && t'.log == s.log && t'.commit == s.commit && t'.term == s.term
  {
    longer, e := HeardOf(c, evs, d, to, k);
    longer, e := CatchUp(c, longer, e, 0, to, k);
  }

  /** It has heard of the leader's term and the leader knows that it has nothing. */
  lemma HeardOf(c: Cluster, evs: seq<Event>, d: Cluster, to: Id, k: Kept) returns (longer: seq<Event>, e: Cluster)
    requires Leads(c, evs, d, k) && |d.servers| == 3 && 1 <= to < 3 && d.batch > 0 && d.cap > 0
    requires var s, t := d.servers[0], d.servers[to];
      && s.role.Leader? && |s.log| == d.cap && LastTerm(s.log) == s.term && NextIndex(s, to) == d.cap
      && t.log == [] && t.commit == 0 && t.term <= s.term && (s.commit == |s.log| || Waits(s, to))
    ensures Leads(c, longer, e, k) && |e.servers| == 3 && e.cap == d.cap && e.batch == d.batch
    ensures forall x :: 1 <= x < 3 && x != to ==> e.servers[x] == d.servers[x]
    ensures CanCatchUp(e.servers[0], e.servers[to], to, d.cap) && e.servers[to].commit == 0
    ensures var s, s' := d.servers[0], e.servers[0];
      s' == s.(next := s'.next) && forall x :: x != to ==> NextIndex(s', x) == NextIndex(s, x)
  {
    longer, e := evs, d;
    if d.cap > 1 {
      longer, e := Refused(c, longer, e, 0, to, k);
    }
  }

  /** All have the same log, as long as the capacity, but server 1 has committed nothing. */
  ghost predicate Filled(d: Cluster) {
    && |d.servers| == 3 && d.batch > 0 && d.cap > 0
    && var s, t, u := d.servers[0], d.servers[1], d.servers[2];
       && s.role.Leader? && LastTerm(s.log) == s.term && |s.log| == s.commit == d.cap
       && NextIndex(s, 1) == NextIndex(s, 2) == d.cap + 1
       && t.log == s.log && t.term == s.term && t.commit == 0
       && u.log == s.log && u.term == s.term && u.commit == d.cap
  }

  lemma Fill(c: Cluster, cap: nat, batch: nat, k: Kept) returns (evs: seq<Event>, d: Cluster)
    requires c == NewCluster(3, cap, batch) && cap > 0 && batch > 0
    ensures Leads(c, evs, d, k) && Filled(d) && d.cap == cap && d.batch == batch
  {
    evs, d := GoAlone(c, cap, batch, k);
    evs, d := BringUp(c, evs, d, 1, k);
    evs, d := BringUp(c, evs, d, 2, k);
  }

  /** The leader commits one more entry with server 2 and sends it to server 1. */
  lemma OneMore(c: Cluster, evs: seq<Event>, d: Cluster, k: Kept)
    returns (longer: seq<Event>, e: Cluster, m: Message)
    requires Leads(c, evs, d, k) && Filled(d)
    ensures Leads(c, longer, e, k) && |e.servers| == 3 && e.cap == d.cap && m in e.net && e.servers[1] == d.servers[1]
    ensures m.Append? && m.to == 1 && Accepted(d.servers[1], m)
    ensures OnAppend(d.servers[1], m, d.cap).log == d.servers[1].log
    ensures OnAppend(d.servers[1], m, d.cap).commit == d.cap + 1
  {
    longer, e := SubmitOne(c, evs, d, 0, k);
    longer, e := Extend(c, longer, e, 0, 2, d.cap + 1, k);
    LastPiece(e.servers[0], e.servers[1], 0, 1, d.batch);
    TakesLast(e.servers[0], e.servers[1], 0, 1, d.batch, d.cap);
    longer, e, m := Send(c, longer, e, 0, 1, k);
  }

  /**
   * A full follower that has committed nothing, so that nothing of its log can have been compacted and the
   * next entry can find no room, takes over the commit index all the same. All other care is taken, and
   * leaders count right, for every capacity and message size.
   */
  lemma FullFollowerSkips(cap: nat, batch: nat) returns (evs: seq<Event>, m: Message)
    requires cap > 0 && batch > 0
    ensures var c := NewCluster(3, cap, batch);
      && ValidRun(c, evs) && Keeps(c, evs, ALL) && F.RunMinds(c, evs, C.Held)
      && var d := Run(c, evs);
         && |d.servers| == 3 && d.servers[1].commit == 0 && |d.servers[1].log| == cap
         && Enabled(d, HearsAppend(1, m, cap)) && (forall room :: Enabled(d, HearsAppend(1, m, room)) ==> room == cap)
         && var s := Next(d, HearsAppend(1, m, cap)).servers[1]; s.commit == |s.log| + 1
  {
    var c := NewCluster(3, cap, batch);
    var d: Cluster;
    evs, d := Fill(c, cap, batch, ALL);
    evs, d, m := OneMore(c, evs, d, ALL);
    G.LeadersCountRight(3, cap, batch, evs);
    assert Next(d, HearsAppend(1, m, cap)).servers[1] == OnAppend(d.servers[1], m, cap);
  }

  // ---- Restarts ----------------------------------------------------------

  lemma RestartOne(c: Cluster, evs: seq<Event>, d: Cluster, n: Id, k: Kept)
    returns (longer: seq<Event>, e: Cluster)
    requires Leads(c, evs, d, k) && n < |d.servers| && !k.noRestart
    ensures Leads(c, longer, e, k) && e.servers == d.servers[n := Restart(d.servers[n])]
    ensures e.cap == d.cap && e.batch == d.batch
  {
    longer := Then(c, evs, d, Restarts(n), k);
    e := Next(d, Restarts(n));
  }

  /** Servers 0 and 1 restart and agree on a new first entry. */
  lemma StartAgain(d: Cluster, log: seq<Entry>, k: Kept) returns (evs: seq<Event>, e: Cluster)
    requires Led(d, log) && d.cap > 0 && !k.noRestart
    ensures Leads(d, evs, e, k) && |e.servers| == 3
    ensures e.servers[0].commit == 1 && e.servers[0].log == [Entry(2, [])]
  {
    evs, e := RestartOne(d, [], d, 0, k);
    evs, e := RestartOne(d, evs, e, 1, k);
    evs, e := Elect(d, evs, e, 0, 1, false, k);
    assert e.servers[0].log == [Entry(2, [])];
    evs, e := Extend(d, evs, e, 0, 1, d.cap, k);
  }

  /**
   * Only the term and the vote are in flash: three servers of which two restart commit another entry at an
   * index they had committed before. All other care is taken, for every capacity.
   */
  lemma RestartsForget(cap: nat, batch: nat) returns (before: seq<Event>, after: seq<Event>)
    requires cap > 0 && batch > 0
    ensures var c, k := NewCluster(3, cap, batch), ALL.(noRestart := false);
      && ValidRun(c, before) && Keeps(c, before, k) && ValidRun(c, before + after) && Keeps(c, before + after, k)
      && N.AllShare(c, before + after)
      && !F.CommittedAlike(Run(c, before), Run(c, before + after))
  {
    var c, k := NewCluster(3, cap, batch), ALL.(noRestart := false);
    var d, e: Cluster;
    before, d := FirstLed(c, cap, batch, k);
    after, e := StartAgain(d, [Entry(1, [])], k);
    Joined(c, before, after, k);
    N.RepliesAreShared(3, cap, batch, before + after);
    Disagree(d, e, 0, 0, 0);
  }

  lemma {:induction false} Joined(c: Cluster, before: seq<Event>, after: seq<Event>, k: Kept)
    requires ValidRun(c, before) && Keeps(c, before, k)
    requires ValidRun(Run(c, before), after) && Keeps(Run(c, before), after, k)
    ensures ValidRun(c, before + after) && Keeps(c, before + after, k)
    ensures Run(c, before + after) == Run(Run(c, before), after)
    decreases |after|
  {
    if after == [] {
      assert before + after == before;
    } else {
      var ev, rest := after[0], after[1..];
      var _ := Then(c, before, Run(c, before), ev, k);
      assert before + after == (before + [ev]) + rest;
      Joined(c, before + [ev], rest, k);
    }
  }

  lemma Disagree(c: Cluster, d: Cluster, a: Id, b: Id, i: nat)
    requires a < |c.servers| && b < |d.servers| && i < c.servers[a].commit && i < d.servers[b].commit
    requires i < |c.servers[a].log| && i < |d.servers[b].log| && d.servers[b].log[i] != c.servers[a].log[i]
    ensures !F.CommittedAlike(c, d)
  {
    assert !F.AlikeAt(c, d, a, b, i);
  }
}
