/**
 * One Raft server with its fields changed in place, message by message; each handler is
 * the function of the Raft module that the cluster proofs are about.
 */
module RaftServer {
  import opened Basics
  import opened Raft

  lemma HoldersStep(s: Server, self: Id, i: nat, n: nat)
    ensures Holders(s, self, i + 1, n)
         == Holders(s, self, i, n) + if i == self || (i in s.matched && s.matched[i] >= n) then {i} else {}
    ensures i !in Holders(s, self, i, n)
  {
  }

  class RaftServer {
    const self: Id
    const size: nat
    var term: Term
    var votedFor: Option<Id>
    var role: Role
    var granted: set<Id>
    var votesGranted: nat
    var log: seq<Entry>
    var commit: nat
    var matchIndex: map<Id, nat>
    var stood: nat
    var nextIndex: map<Id, Index>

    ghost predicate Valid()
      reads this
    {
      self < size && votesGranted == |granted|
    }

    ghost function View(): Server
      reads this
    {
      Server(term, votedFor, role, granted, log, commit, matchIndex, stood, nextIndex)
    }

    constructor (self: Id, size: nat)
      requires self < size
      ensures Valid() && View() == NewServer && this.self == self && this.size == size
    {
      this.self, this.size := self, size;
      term, votedFor, role, granted, votesGranted := 0, None, Follower, {}, 0;
      log, commit, matchIndex, stood, nextIndex := [], 0, map[], 0, map[];
    }

    method MaybeStepDown(seen: Term)
      requires Valid()
      modifies `term, `votedFor, `role
      ensures Valid() && View() == StepDown(old(View()), seen)
    {
      if seen > term {
        term := seen;
        votedFor := None;
        role := Follower;
      }
    }

    /** Stand for election; alone in the cluster that is enough to win. */
    method BecomeCandidate(full: bool)
      requires Valid()
      modifies this
      ensures Valid() && View() == LeadIfElected(Campaign(old(View()), self), size, full)
    {
      role := Candidate;
      term := term + 1;
      votedFor := Some(self);
      granted, votesGranted := {self}, 1;
      if votesGranted >= size / 2 + 1 {
        BecomeLeader(full);
      }
    }

    method BecomeLeader(full: bool)
      requires Valid()
      modifies `role, `matchIndex, `stood, `nextIndex, `log
      ensures Valid() && View() == Lead(old(View()), full)
    {
      role := Leader;
      matchIndex, stood, nextIndex := map[], |log|, map[];
      if !full {
        log := log + [Entry(term, [])];
      }
    }

    method HandleRequestVote(m: Message) returns (reply: Message)
      requires Valid() && m.RequestVote?
      modifies `term, `votedFor, `role
      ensures Valid() && View() == OnRequestVote(old(View()), m)
      ensures reply == VoteReply(self, m.candidate, term, Grants(old(View()), m))
    {
      MaybeStepDown(m.term);
      if m.term < term {
        return VoteReply(self, m.candidate, term, false);
      }
      var grant := false;
      if votedFor == None || votedFor == Some(m.candidate) {
        var lastTerm := if log == [] then 0 else log[|log| - 1].term;
        if m.lastTerm > lastTerm || (m.lastTerm == lastTerm && m.lastIndex >= |log|) {
          grant := true;
          votedFor := Some(m.candidate);
        }
      }
      return VoteReply(self, m.candidate, term, grant);
    }

    method HandleVoteReply(m: Message, full: bool)
      requires Valid() && m.VoteReply?
      modifies this
      ensures Valid() && View() == OnVoteReply(old(View()), m, size, full)
    {
      if !role.Candidate? {
        return;
      }
      if m.term > term {
        MaybeStepDown(m.term);
        return;
      }
      if m.term < term || m.from >= size || m.from in granted {
        return;
      }
      if m.granted {
        granted, votesGranted := granted + {m.from}, votesGranted + 1;
        if votesGranted >= size / 2 + 1 {
          BecomeLeader(full);
        }
      }
    }

    /** Take in the new entries one by one, cutting the log at the first conflict. */
    method MergeEntries(prev: nat, entries: seq<Entry>, room: nat)
      requires Valid()
      modifies `log
      ensures Valid() && log == Merge(old(log), prev, entries, room)
    {
      for i := 0 to |entries|
        invariant Merge(log, prev + i, entries[i..], room) == Merge(old(log), prev, entries, room)
      {
        var at := prev + i;
        assert entries[i..][0] == entries[i] && entries[i..][1..] == entries[i + 1..];
        if at < |log| && log[at].term == entries[i].term {
          continue;
        }
        if at < |log| {
          log := log[..at];
        }
        if |log| < room {
          log := log + [entries[i]];
        }
      }
    }

    /** The first index of the run of equal terms that ends at an index, found by walking back. */
    method FirstOfRun(i: nat) returns (first: nat)
      requires Valid() && 0 < i <= |log|
      ensures first == FirstOfTerm(log, i)
    {
      first := i;
      while first > 1 && log[first - 2].term == log[i - 1].term
        invariant 0 < first <= i && log[first - 1].term == log[i - 1].term
        invariant FirstOfTerm(log, i) == FirstOfTerm(log, first)
      {
        first := first - 1;
      }
    }

    method HandleAppend(m: Message, room: nat) returns (reply: Message)
      requires Valid() && m.Append?
      modifies `term, `votedFor, `role, `log, `commit
      ensures Valid() && View() == OnAppend(old(View()), m, room)
      ensures reply == AppendReply(self, m.leader, term, Accepted(old(View()), m), |log|, HintFor(old(View()), m))
    {
      if m.term < term {
        return AppendReply(self, m.leader, term, false, |log|, NoHint);
      }
      MaybeStepDown(m.term);
      role := Follower;
      if m.prevIndex > |log| {
        return AppendReply(self, m.leader, term, false, |log|, Hint(|log| + 1, 0));
      }
      var prevTerm := if m.prevIndex == 0 then 0 else log[m.prevIndex - 1].term;
      if prevTerm != m.prevTerm {
        var hint := NoHint;
        if m.prevIndex > 0 {
          var first := FirstOfRun(m.prevIndex);
          hint := Hint(first, prevTerm);
        }
        return AppendReply(self, m.leader, term, false, |log|, hint);
      }
      MergeEntries(m.prevIndex, m.entries, room);
      if m.commit > commit {
        var lastNew := m.prevIndex + |m.entries|;
        var known := if m.commit < lastNew then m.commit else lastNew;
        commit := if known > commit then known else commit;
      }
      return AppendReply(self, m.leader, term, true, |log|, NoHint);
    }

    /** How many servers are known to hold index n, this one included. */
    method CountHolders(n: nat) returns (count: nat)
      requires Valid()
      ensures count == |Holders(View(), self, size, n)|
    {
      count := 0;
      for i := 0 to size
        invariant count == |Holders(View(), self, i, n)|
      {
        HoldersStep(View(), self, i, n);
        if i == self || (i in matchIndex && matchIndex[i] >= n) {
          count := count + 1;
        }
      }
    }

    /** Walk back from the end of the log to the newest entry of this term that a majority holds. */
    method LeaderAdvanceCommit()
      requires Valid()
      modifies `commit
      ensures Valid() && View() == AdvanceCommit(old(View()), self, size, |log|)
    {
      var next: nat := |log|;
      while next > commit
        invariant next <= |log| && View() == old(View())
        invariant AdvanceCommit(View(), self, size, |log|) == AdvanceCommit(View(), self, size, next)
      {
        if log[next - 1].term == term {
          var count := CountHolders(next);
          if count >= size / 2 + 1 {
            commit := next;
            return;
          }
        }
        next := next - 1;
      }
    }

    /** The last index of an entry of a term, or 0, found by walking back. */
    method FindLast(wanted: Term) returns (last: nat)
      requires Valid()
      ensures last == LastOfTerm(log, |log|, wanted)
    {
      last := |log|;
      while last > 0 && log[last - 1].term != wanted
        invariant last <= |log| && LastOfTerm(log, |log|, wanted) == LastOfTerm(log, last, wanted)
      {
        last := last - 1;
      }
    }

    method NextFor(peer: Id) returns (next: Index)
      ensures next == NextIndex(View(), peer)
    {
      next := if peer in nextIndex then nextIndex[peer] else stood + 1;
    }

    /** Where to go on with a peer that refused. */
    method BackUp(peer: Id, hint: Hint) returns (next: Index)
      requires Valid()
      ensures next == Backup(View(), peer, hint)
    {
      var backup := hint.index;
      if hint.term != 0 {
        var found := FindLast(hint.term);
        if found != 0 {
          backup := found + 1;
        }
      } else if backup == 0 {
        var before := NextFor(peer);
        backup := if before > 1 then before - 1 else 1;
      }
      next := if backup > 1 then backup else 1;
    }

    /** Count a success or back up after a refusal, and send what is next, if the peer still lacks something. */
    method HandleAppendReply(m: Message, batch: nat) returns (out: Option<Message>)
      requires Valid() && m.AppendReply?
      modifies `term, `votedFor, `role, `matchIndex, `nextIndex, `commit
      ensures Valid() && View() == OnAppendReply(old(View()), self, m, size)
      ensures out.Some? <==>
        && old(role).Leader? && m.term == old(term) && m.from < size
        && NextIndex(View(), m.from) <= if m.success then |log| else |log| + 1
      ensures out.Some? ==> out.value == NextAppend(View(), self, m.from, batch)
    {
      out := None;
      if m.term > term {
        MaybeStepDown(m.term);
        return;
      }
      if !role.Leader? || m.term < term || m.from >= size {
        return;
      }
      if !m.success {
        var back := BackUp(m.from, m.hint);
        nextIndex := nextIndex[m.from := back];
        out := AppendFor(m.from, batch);
        return;
      }
      var next := NextFor(m.from);
      next := if next > m.lastIndex + 1 then next else m.lastIndex + 1;
      var end := m.lastIndex;
      if m.from in matchIndex && matchIndex[m.from] > end {
        end := matchIndex[m.from];
      }
      nextIndex := nextIndex[m.from := next];
      matchIndex := matchIndex[m.from := end];
      LeaderAdvanceCommit();
      if next <= |log| {
        out := AppendFor(m.from, batch);
      }
    }

    /** The append for a peer, entry by entry; none if its next entry is beyond the log. */
    method AppendFor(to: Id, batch: nat) returns (m: Option<Message>)
      requires Valid()
      ensures m.Some? <==> NextIndex(View(), to) <= |log| + 1
      ensures m.Some? ==> m.value == NextAppend(View(), self, to, batch)
    {
      var next := NextFor(to);
      var from: nat := next;
      var prev := from - 1;
      if prev > |log| {
        return None;
      }
      var prevTerm := if prev == 0 then 0 else log[prev - 1].term;
      var entries: seq<Entry> := [];
      var idx: nat := prev;
      while idx < |log| && |entries| < batch
        invariant prev <= idx <= |log| && |entries| <= batch && idx == prev + |entries|
        invariant entries == log[prev..idx]
      {
        entries := entries + [log[idx]];
        idx := idx + 1;
      }
      m := Some(Append(self, to, term, prev, prevTerm, entries, commit));
    }

    /** A client's entry: only for a leader with room; a leader alone commits it at once. */
    method SubmitEntry(data: seq<uint8>, full: bool) returns (index: Option<nat>)
      requires Valid()
      modifies `log, `commit
      ensures Valid() && index == if role.Leader? && !full then Some(|log|) else None
      ensures var submitted := Submit(old(View()), data);
        View() == if index.None? then old(View())
                  else if size > 1 then submitted
                  else AdvanceCommit(submitted, self, size, |submitted.log|)
    {
      if !role.Leader? || full {
        return None;
      }
      log := log + [Entry(term, data)];
      if size == 1 {
        LeaderAdvanceCommit();
      }
      return Some(|log|);
    }
  }
}
