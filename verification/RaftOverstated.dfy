/**
 * Replies that claim too much, in runs without restarts and with room at followers: once because a
 * leader submits without its no-op, once because refusals without a hint sent a leader back too far.
 */
module RaftOverstated {
  import opened Basics
  import opened Raft
  import opened RaftLimits
  import F = RaftSafety
  import C = RaftCompleteness

  // ---- Merging -----------------------------------------------------------

  lemma {:induction false} MergePresent(log: seq<Entry>, prev: nat, entries: seq<Entry>, room: nat)
    requires prev + |entries| <= |log| && entries == log[prev..prev + |entries|]
    ensures Merge(log, prev, entries, room) == log
    decreases |entries|
  {
    if entries != [] {
      assert entries[1..] == log[prev + 1..prev + 1 + |entries[1..]|];
      MergePresent(log, prev + 1, entries[1..], room);
    }
  }

  // ---- Another server takes over -----------------------------------------

  /** Server 1 has the beginning of server 0's log and room for the rest of it and a no-op. */
  ghost predicate Behind(d: Cluster) {
    && |d.servers| == 3
    && var s, t := d.servers[0], d.servers[1];
       && !s.role.Leader? && t.term <= s.term && 0 < |t.log| < |s.log| && t.log == s.log[..|t.log|]
       && UpToDate(LastTerm(s.log), |s.log|, t.log)
       && s.commit <= |s.log| < s.commit + d.cap && |s.log| + 1 <= t.commit + d.cap
       && |s.log| + 1 - |t.log| <= d.batch
  }

  /** Server 0 has won and its first message is refused for what server 1 lacks. */
  lemma RefusedOnce(c: Cluster, evs: seq<Event>, d: Cluster, k: Kept) returns (longer: seq<Event>, e: Cluster)
    requires Leads(c, evs, d, k) && Behind(d)
    ensures Leads(c, longer, e, k) && |e.servers| == 3 && e.cap == d.cap && e.batch == d.batch
    ensures var s, t, s', t' := d.servers[0], d.servers[1], e.servers[0], e.servers[1];
      && s'.role.Leader? && s'.term == t'.term == s.term + 1 && s'.commit == s.commit
      && s'.log == s.log + [Entry(s.term + 1, [])] && NextIndex(s', 1) == |t.log| + 1
      && t'.log == t.log && t'.commit == t.commit
  {
    longer, e := Elect(c, evs, d, 0, 1, false, k);
    longer, e := Refused(c, longer, e, 0, 1, k);
  }

  /** The rest of the leader's log, in one message. */
  lemma RestPiece(s: Server, t: Server, batch: nat, room: nat)
    requires NextIndex(s, 1) == |t.log| + 1 && |t.log| <= |s.log| <= |t.log| + batch && t.log == s.log[..|t.log|]
    requires t.term == s.term && |s.log| <= room
    ensures var m := NextAppend(s, 0, 1, batch);
      && Accepted(t, m) && OnAppend(t, m, room).log == s.log && m.prevIndex + |m.entries| == |s.log|
  {
    var m := NextAppend(s, 0, 1, batch);
    assert m.entries == s.log[|t.log|..];
    MergeAppends(t.log, m.entries, room);
    assert t.log + m.entries == s.log;
  }

  /** Server 0 leads and commits its log to the end. */
  lemma TakeOver(c: Cluster, evs: seq<Event>, d: Cluster, k: Kept) returns (longer: seq<Event>, e: Cluster)
    requires Leads(c, evs, d, k) && Behind(d)
    ensures Leads(c, longer, e, k) && |e.servers| == 3
    ensures e.servers[0].log == d.servers[0].log + [Entry(d.servers[0].term + 1, [])]
    ensures e.servers[0].commit == |e.servers[0].log|
  {
    longer, e := RefusedOnce(c, evs, d, k);
    var room := e.servers[1].commit + d.cap;
    RestPiece(e.servers[0], e.servers[1], d.batch, room);
    var s := e.servers[0];
    var reply: Message;
    longer, e, reply := Replicate(c, longer, e, 0, 1, room, k);
    CommitsAll(s, 0, reply);
  }

  // ---- A leader without its no-op ----------------------------------------

  /** Server 0 has an entry of term 1 more than the others. */
  ghost predicate Ahead(d: Cluster, log: seq<Entry>, more: seq<Entry>) {
    && |d.servers| == 3 && OfTermOne(log) && d.batch > 0
    && d.servers[0].role.Leader? && d.servers[0].term == 1 && d.servers[0].log == log + more
    && d.servers[0].commit == |log|
    && !d.servers[1].role.Leader? && d.servers[1].term == 1 && d.servers[1].log == log
    && d.servers[1].commit == |log| - 1
    && !d.servers[2].role.Leader? && d.servers[2].term == 1 && d.servers[2].log == log
    && d.servers[2].commit == |log|
  }

  lemma GoAhead(c: Cluster, cap: nat, batch: nat, len: nat, k: Kept)
    returns (evs: seq<Event>, d: Cluster, log: seq<Entry>)
    requires c == NewCluster(3, cap, batch) && batch > 0 && 0 < len <= cap
    ensures Leads(c, evs, d, k) && Ahead(d, log, [Entry(1, [])]) && |log| == len && d.cap == cap && d.batch == batch
  {
    evs, d, log := LedUpTo(c, cap, batch, len, k);
    evs, d := SubmitOne(c, evs, d, 0, k);
  }

  /** Server 2 leads term 2 with a full log and server 0 reports more than it shares. */
  lemma Overstates(c: Cluster, evs: seq<Event>, d: Cluster, log: seq<Entry>, k: Kept)
    returns (longer: seq<Event>, e: Cluster, reply: Message)
    requires Leads(c, evs, d, k) && Ahead(d, log, [Entry(1, [])]) && |log| == d.cap && !k.noop
    ensures Leads(c, longer, e, k) && |e.servers| == 3 && e.cap == d.cap && e.batch == d.batch
    ensures reply in e.net && reply == AppendReply(0, 2, 2, true, d.cap + 1, NoHint)
    ensures var s := e.servers[2]; s.role.Leader? && s.term == 2 && s.log == log && s.commit == d.cap
    ensures var s := e.servers[0];
      s.role.Follower? && s.term == 2 && s.log == log + [Entry(1, [])] && s.commit == d.cap
    ensures var s := e.servers[1]; s.term == 2 && s.log == log && s.commit == d.cap - 1
  {
    longer, e := Elect(c, evs, d, 2, 1, true, k);
    assert e.servers[2].log[d.cap..d.cap] == [];
    longer, e, reply := Replicate(c, longer, e, 2, 0, d.cap, k);
  }

  /** It submits once there is room again, and a repeated reply commits the entry it alone holds. */
  lemma CommitsAlone(c: Cluster, evs: seq<Event>, d: Cluster, log: seq<Entry>, k: Kept)
    returns (longer: seq<Event>, e: Cluster)
    requires Leads(c, evs, d, k) && Ahead(d, log, [Entry(1, [])]) && |log| == d.cap > 2 && d.batch > 1 && !k.noop
    ensures Leads(c, longer, e, k) && Behind(e)
    ensures e.servers[2].log == log + [Entry(2, [])] && e.servers[2].commit == d.cap + 1
    ensures e.servers[0].log == log + [Entry(1, [])]
  {
    var reply: Message;
    longer, e, reply := Overstates(c, evs, d, log, k);
    longer, e := SubmitOne(c, longer, e, 2, k);
    CommitsAll(e.servers[2], 2, reply);
    longer, e := Hear(c, longer, e, 2, reply, k);
  }

  /**
   * A leader whose no-op found no room submits once there is room, and commits an entry it alone holds; a later
   * leader commits another one in its place. All other care is taken, for every capacity above 2 and messages
   * of more than one entry. There is room again in its term only if a snapshot is saved that could not be saved
   * when the log filled up, or is asked for from outside.
   */
  lemma NoopRefused(cap: nat, batch: nat) returns (before: seq<Event>, after: seq<Event>)
    requires cap > 2 && batch > 1
    ensures var c, k := NewCluster(3, cap, batch), ALL.(noop := false);
      && ValidRun(c, before) && Keeps(c, before, k) && ValidRun(c, before + after) && Keeps(c, before + after, k)
      && !F.CommittedAlike(Run(c, before), Run(c, before + after))
  {
    var c, k := NewCluster(3, cap, batch), ALL.(noop := false);
    var d, e: Cluster;
    var log: seq<Entry>;
    before, d, log := GoAhead(c, cap, batch, cap, k);
    before, d := CommitsAlone(c, before, d, log, k);
    after, e := TakeOver(d, [], d, k);
    Joined(c, before, after, k);
    Disagree(d, e, 2, 0, cap);
  }

  // ---- Refusals without a hint -------------------------------------------

  /** Server 0 goes two entries ahead. */
  lemma GoTwoAhead(c: Cluster, cap: nat, batch: nat, len: nat, k: Kept)
    returns (evs: seq<Event>, d: Cluster, log: seq<Entry>)
    requires c == NewCluster(3, cap, batch) && batch > 0 && 0 < len <= cap && cap > 1
    ensures Leads(c, evs, d, k) && Ahead(d, log, [Entry(1, []), Entry(1, [])]) && |log| == len
    ensures d.cap == cap && d.batch == batch
  {
    evs, d, log := GoAhead(c, cap, batch, len, k);
    evs, d := SubmitOne(c, evs, d, 0, k);
    assert log + [Entry(1, [])] + [Entry(1, [])] == log + [Entry(1, []), Entry(1, [])];
  }

  /** Server 2 leads term 2; its first message to server 0 stays on the way. */
  lemma MessageDelayed(c: Cluster, evs: seq<Event>, d: Cluster, log: seq<Entry>, k: Kept)
    returns (longer: seq<Event>, e: Cluster, late: Message)
    requires Leads(c, evs, d, k) && Ahead(d, log, [Entry(1, []), Entry(1, [])])
    requires d.cap > 1
    ensures Leads(c, longer, e, k) && |e.servers| == 3 && e.cap == d.cap && e.batch == d.batch
    ensures late in e.net && late.Append? && late.leader == 2 && late.to == 0 && late.term == 2
    ensures e.servers[0] == d.servers[0]
    ensures var s := e.servers[1]; !s.role.Leader? && s.term == 2 && s.log == log && s.commit == |log| - 1
    ensures var s := e.servers[2];
      s.role.Leader? && s.term == 2 && s.log == log + [Entry(2, [])] && s.commit == |log|
  {
    longer, e := Elect(c, evs, d, 2, 1, false, k);
    longer, e, late := Send(c, longer, e, 2, 0, k);
  }

  /** Server 2 leads term 3 with the vote of server 0, which then refuses the late message. */
  lemma LateRefusal(c: Cluster, evs: seq<Event>, d: Cluster, log: seq<Entry>, late: Message, k: Kept)
    returns (longer: seq<Event>, e: Cluster, refusal: Message)
    requires Leads(c, evs, d, k) && |d.servers| == 3 && OfTermOne(log) && d.cap > 1
    requires late in d.net && late.Append? && late.leader == 2 && late.to == 0 && late.term == 2
    requires var s := d.servers[0];
      s.term == 1 && s.log == log + [Entry(1, []), Entry(1, [])] && s.commit == |log|
    requires var s := d.servers[2];
      s.role.Leader? && s.term == 2 && s.log == log + [Entry(2, [])] && s.commit == |log|
    ensures Leads(c, longer, e, k) && |e.servers| == 3 && e.cap == d.cap && e.batch == d.batch
    ensures refusal in e.net && refusal == AppendReply(0, 2, 3, false, |log| + 2, NoHint)
    ensures e.servers[1] == d.servers[1]
    ensures var s := e.servers[0]; s.role.Follower? && s.term == 3 && s.log == d.servers[0].log && s.commit == |log|
    ensures var s := e.servers[2];
      && s.role.Leader? && s.term == 3 && s.log == log + [Entry(2, []), Entry(3, [])] && s.commit == |log|
      && NextIndex(s, 0) == |log| + 2
  {
    longer, e := LoseContact(c, evs, d, 2, k);
    longer, e := Elect(c, longer, e, 2, 0, false, k);
    assert log + [Entry(2, [])] + [Entry(3, [])] == log + [Entry(2, []), Entry(3, [])];
    longer, e := Receive(c, longer, e, late, d.cap, k);
    refusal := AppendReply(0, 2, 3, false, |log| + 2, NoHint);
  }

  /** Each time the leader hears that refusal it goes back one entry. */
  lemma {:induction false} HearDown(c: Cluster, evs: seq<Event>, d: Cluster, refusal: Message, to: Index, k: Kept)
    returns (longer: seq<Event>, e: Cluster)
    requires Leads(c, evs, d, k) && |d.servers| == 3 && refusal in d.net && d.servers[2].role.Leader? && !k.hinted
    requires refusal.AppendReply? && refusal.from == 0 && refusal.to == 2 && refusal.term == d.servers[2].term
    requires !refusal.success && refusal.hint == NoHint && to <= NextIndex(d.servers[2], 0)
    ensures Leads(c, longer, e, k) && |e.servers| == 3 && e.cap == d.cap && e.batch == d.batch
    ensures e.servers[0] == d.servers[0] && e.servers[1] == d.servers[1]
    ensures NextIndex(e.servers[2], 0) == to && e.servers[2] == d.servers[2].(next := e.servers[2].next)
    decreases NextIndex(d.servers[2], 0)
  {
    if to == NextIndex(d.servers[2], 0) {
      longer, e := evs, d;
    } else {
      longer, e := Hear(c, evs, d, 2, refusal, k);
      longer, e := HearDown(c, longer, e, refusal, to, k);
    }
  }

  /** Sent back to the beginning, the leader sends only what both share, and server 0 reports all it has. */
  lemma CountsTooMuch(c: Cluster, evs: seq<Event>, d: Cluster, log: seq<Entry>, k: Kept)
    returns (longer: seq<Event>, e: Cluster)
    requires Leads(c, evs, d, k) && |d.servers| == 3 && OfTermOne(log) && d.batch == |log| <= d.cap
    requires var s := d.servers[0];
      s.role.Follower? && s.term == 3 && s.log == log + [Entry(1, []), Entry(1, [])] && s.commit == |log|
    requires var s := d.servers[2];
      && s.role.Leader? && s.term == 3 && s.log == log + [Entry(2, []), Entry(3, [])] && s.commit == |log|
      && NextIndex(s, 0) == 1
    ensures Leads(c, longer, e, k) && |e.servers| == 3 && e.cap == d.cap && e.batch == d.batch
    ensures e.servers[0] == d.servers[0] && e.servers[1] == d.servers[1]
    ensures e.servers[2].log == d.servers[2].log && e.servers[2].commit == |log| + 2
  {
    var s, t := d.servers[2], d.servers[0];
    assert s.log[0..|log|] == log == t.log[0..|log|];
    MergePresent(t.log, 0, log, d.cap);
    var reply: Message;
    longer, e, reply := Replicate(c, evs, d, 2, 0, d.cap, k);
    CommitsAll(s, 2, reply);
  }

  /**
   * A refusal of an old message comes back in a later term of the same leader and sends it back one entry each
   * time it is heard; then a follower's unshared entries are counted, and two leaders commit different
   * entries in one place. All other care is taken.
   */
  lemma HintlessRefusals(cap: nat, batch: nat) returns (before: seq<Event>, after: seq<Event>)
    requires 3 <= batch <= cap && cap > 3
    ensures var c, k := NewCluster(3, cap, batch), ALL.(hinted := false);
      && ValidRun(c, before) && Keeps(c, before, k) && ValidRun(c, before + after) && Keeps(c, before + after, k)
      && !F.CommittedAlike(Run(c, before), Run(c, before + after))
  {
    var c, k := NewCluster(3, cap, batch), ALL.(hinted := false);
    var d, e: Cluster;
    var log: seq<Entry>;
    var late, refusal: Message;
    before, d, log := GoTwoAhead(c, cap, batch, batch, k);
    before, d, late := MessageDelayed(c, before, d, log, k);
    before, d, refusal := LateRefusal(c, before, d, log, late, k);
    before, d := HearDown(c, before, d, refusal, 1, k);
    before, d := CountsTooMuch(c, before, d, log, k);
    after, e := TakeOver(d, [], d, k);
    Joined(c, before, after, k);
    Disagree(d, e, 2, 0, batch);
  }
}
