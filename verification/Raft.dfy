/**
 * The Raft server of the fog tier as a state machine over its message handlers: votes,
 * terms, log replication and commitment, on a network that loses, repeats and reorders.
 * Logs are plain (index 1 first); the RaftLog module shows the ring is one of those.
 */
module Raft {
  import opened Basics

  type Id = nat
  type Term = nat

  datatype Entry = Entry(term: Term, data: seq<uint8>)

  datatype Role = Follower | Candidate | Leader

  /** An index of the log; the first one is 1. */
  type Index = i: nat | i > 0 witness 1

  /**
   * A server; `votes` are the peers whose grant it has counted, `matched` their reported log ends, and
   * `next` the next entry for each peer where that is no longer the one after the log it stood with.
   */
  datatype Server = Server(
    term: Term, votedFor: Option<Id>, role: Role, votes: set<Id>, log: seq<Entry>, commit: nat,
    matched: map<Id, nat>, stood: nat, next: map<Id, Index>)

  const NewServer := Server(0, None, Follower, {}, [], 0, map[], 0, map[])

  /** Where a follower suggests to back up to; index 0 when it has nothing to suggest. */
  datatype Hint = Hint(index: nat, term: Term)

  const NoHint := Hint(0, 0)

  datatype Message =
    | RequestVote(term: Term, candidate: Id, lastIndex: nat, lastTerm: Term)
    | VoteReply(from: Id, to: Id, term: Term, granted: bool)
    | Append(leader: Id, to: Id, term: Term, prevIndex: nat, prevTerm: Term, entries: seq<Entry>, commit: nat)
    | AppendReply(from: Id, to: Id, term: Term, success: bool, lastIndex: nat, hint: Hint)

  // ---- Logs --------------------------------------------------------------

  function TermAt(log: seq<Entry>, index: nat): Term
    requires index <= |log|
  {
    if index == 0 then 0 else log[index - 1].term
  }

  function LastTerm(log: seq<Entry>): Term {
    TermAt(log, |log|)
  }

  /** A candidate's log is at least as up to date as ours (section 5.4 of the Raft paper). */
  predicate UpToDate(lastTerm: Term, lastIndex: nat, log: seq<Entry>) {
    lastTerm > LastTerm(log) || (lastTerm == LastTerm(log) && lastIndex >= |log|)
  }

  /**
   * Bring new entries in after prev: keep those already present, cut at the first conflict, append the
   * rest while there is room (section 5.3).
   */
  function Merge(log: seq<Entry>, prev: nat, entries: seq<Entry>, room: nat): seq<Entry>
    decreases |entries|
  {
    if entries == [] then log
    else if prev < |log| && log[prev].term == entries[0].term then Merge(log, prev + 1, entries[1..], room)
    else
      var kept := if prev < |log| then log[..prev] else log;
      Merge(if |kept| < room then kept + [entries[0]] else kept, prev + 1, entries[1..], room)
  }

  // ---- Handlers ----------------------------------------------------------

  /** Seeing a higher term: adopt it, forget the vote, become a follower. */
  function StepDown(s: Server, term: Term): Server {
    if term > s.term then s.(term := term, votedFor := None, role := Follower) else s
  }

  function Majority(size: nat): nat {
    size / 2 + 1
  }

  function Campaign(s: Server, self: Id): Server {
    s.(role := Candidate, term := s.term + 1, votedFor := Some(self), votes := {self})
  }

  /** Take the lead and append this term's no-op, unless the log is full. */
  function Lead(s: Server, full: bool): Server {
    s.(role := Leader, matched := map[], stood := |s.log|, next := map[],
       log := if full then s.log else s.log + [Entry(s.term, [])])
  }

  function LeadIfElected(s: Server, size: nat, full: bool): Server {
    if |s.votes| >= Majority(size) then Lead(s, full) else s
  }

  predicate Grants(s: Server, m: Message)
    requires m.RequestVote?
  {
    && m.term >= s.term
    && var t := StepDown(s, m.term);
       (t.votedFor == None || t.votedFor == Some(m.candidate)) && UpToDate(m.lastTerm, m.lastIndex, t.log)
  }

  function OnRequestVote(s: Server, m: Message): Server
    requires m.RequestVote?
  {
    if Grants(s, m) then StepDown(s, m.term).(votedFor := Some(m.candidate)) else StepDown(s, m.term)
  }

  function OnVoteReply(s: Server, m: Message, size: nat, full: bool): Server
    requires m.VoteReply?
  {
    if !s.role.Candidate? then s
    else if m.term > s.term then StepDown(s, m.term)
    else if m.term < s.term || m.from >= size || m.from in s.votes || !m.granted then s
    else LeadIfElected(s.(votes := s.votes + {m.from}), size, full)
  }

  /** Whether the log holds what the leader believes precedes the new entries. */
  predicate Consistent(log: seq<Entry>, m: Message)
    requires m.Append?
  {
    m.prevIndex <= |log| && TermAt(log, m.prevIndex) == m.prevTerm
  }

  function OnAppend(s: Server, m: Message, room: nat): Server
    requires m.Append?
  {
    if m.term < s.term then s
    else
      var f := StepDown(s, m.term).(role := Follower);
      if !Consistent(f.log, m) then f
      else
        var lastNew := m.prevIndex + |m.entries|;
        var known := if m.commit < lastNew then m.commit else lastNew;
        f.(log := Merge(f.log, m.prevIndex, m.entries, room), commit := if known > s.commit then known else s.commit)
  }

  /** Whether a follower takes a message's entries. */
  predicate Accepted(s: Server, m: Message)
    requires m.Append?
  {
    m.term >= s.term && Consistent(s.log, m)
  }

  /** The first index of the run of equal terms that ends at index i. */
  function FirstOfTerm(log: seq<Entry>, i: nat): (first: nat)
    requires 0 < i <= |log|
    ensures 0 < first <= i
    decreases i
  {
    if i > 1 && log[i - 2].term == log[i - 1].term then FirstOfTerm(log, i - 1) else i
  }

  /** What a refusal suggests (section 5.3); nothing when the message is of an older term. */
  function HintFor(s: Server, m: Message): Hint
    requires m.Append?
  {
    if m.term < s.term || Consistent(s.log, m) then NoHint
    else if m.prevIndex > |s.log| then Hint(|s.log| + 1, 0)
    else if m.prevIndex == 0 then NoHint
    else Hint(FirstOfTerm(s.log, m.prevIndex), TermAt(s.log, m.prevIndex))
  }

  // ---- Next indices ------------------------------------------------------

  function NextIndex(s: Server, peer: Id): Index {
    if peer in s.next then s.next[peer] else s.stood + 1
  }

  /** The last index up to n with an entry of a term, or 0. */
  function LastOfTerm(log: seq<Entry>, n: nat, term: Term): (last: nat)
    requires n <= |log|
    ensures last <= n
    ensures last > 0 ==> log[last - 1].term == term
    ensures forall i :: last <= i < n ==> log[i].term != term
    decreases n
  {
    if n == 0 || log[n - 1].term == term then n else LastOfTerm(log, n - 1, term)
  }

  /** Where a leader goes on after a refusal: past the hinted term, to the hinted index, or one back. */
  function Backup(s: Server, peer: Id, hint: Hint): Index {
    var found := LastOfTerm(s.log, |s.log|, hint.term);
    if hint.term != 0 && found != 0 then found + 1
    else if hint.index != 0 then hint.index
    else if hint.term == 0 && NextIndex(s, peer) > 1 then NextIndex(s, peer) - 1
    else 1
  }

  // ---- Commitment --------------------------------------------------------

  /** The server and the peers whose reported log ends reach index n. */
  function Holders(s: Server, self: Id, size: nat, n: nat): set<Id> {
    set i | 0 <= i < size && (i == self || (i in s.matched && s.matched[i] >= n))
  }

  /** The highest index up to n, of the current term, that a majority is counted to hold. */
  function AdvanceCommit(s: Server, self: Id, size: nat, n: nat): Server
    requires n <= |s.log|
    decreases n
  {
    if n <= s.commit then s
    else if TermAt(s.log, n) == s.term && |Holders(s, self, size, n)| >= Majority(size) then s.(commit := n)
    else AdvanceCommit(s, self, size, n - 1)
  }

  function OnAppendReply(s: Server, self: Id, m: Message, size: nat): Server
    requires m.AppendReply?
  {
    if m.term > s.term then StepDown(s, m.term)
    else if !s.role.Leader? || m.term < s.term || m.from >= size then s
    else if !m.success then s.(next := s.next[m.from := Backup(s, m.from, m.hint)])
    else AdvanceCommit(Counted(s, m), self, size, |s.log|)
  }

  /** A leader's indices for a peer after a success: neither goes back. */
  function Counted(s: Server, m: Message): Server
    requires m.AppendReply?
  {
    var end := if m.from in s.matched && s.matched[m.from] > m.lastIndex then s.matched[m.from] else m.lastIndex;
    var next := if NextIndex(s, m.from) > m.lastIndex + 1 then NextIndex(s, m.from) else m.lastIndex + 1;
    s.(matched := s.matched[m.from := end], next := s.next[m.from := next])
  }

  function Submit(s: Server, data: seq<uint8>): Server {
    s.(log := s.log + [Entry(s.term, data)])
  }

  /** A restart keeps what is in flash: the term and the vote. The log is only in memory. */
  function Restart(s: Server): Server {
    NewServer.(term := s.term, votedFor := s.votedFor)
  }

  // ---- The cluster -------------------------------------------------------

  /**
   * What has happened, for the proofs: who voted for whom and with which log, with which log a
   * candidate stood, who led each term, elected by whom, from which log and up to which, and how far
   * each server has been in step with the leader of a term.
   */
  datatype History = History(
    ballots: map<(Id, Term), Id>, voteLogs: map<(Id, Term), seq<Entry>>, standLogs: map<(Id, Term), seq<Entry>>,
    leaders: map<Term, Id>, electors: map<Term, set<Id>>,
    startLogs: map<Term, seq<Entry>>, termLogs: map<Term, seq<Entry>>,
    acks: map<(Id, Term), nat>)

  const NoHistory := History(map[], map[], map[], map[], map[], map[], map[], map[])

  /** The servers, all messages ever sent, and the limits: live entries of a log, entries of a message. */
  datatype Cluster = Cluster(servers: seq<Server>, net: set<Message>, h: History, cap: nat, batch: nat)

  function NewCluster(size: nat, cap: nat, batch: nat): Cluster {
    Cluster(seq(size, _ => NewServer), {}, NoHistory, cap, batch)
  }

  datatype Event =
    | Campaigns(n: Id, full: bool)                         // election timeout, after a won pre-vote
    | HearsRequest(n: Id, m: Message)
    | HearsVote(n: Id, m: Message, full: bool)
    | Submits(n: Id, data: seq<uint8>)
    | Sends(n: Id, to: Id)                                 // a heartbeat or a batch of entries
    | HearsAppend(n: Id, m: Message, room: nat)
    | HearsAppendReply(n: Id, m: Message)
    | Recounts(n: Id)                                      // a leader alone commits what it has submitted
    | LosesContact(n: Id)                                  // a leader without a majority steps down
    | Restarts(n: Id)

  /**
   * Whether a log may be full, or have room: its live part starts somewhere from the beginning to the
   * commit index, since only what is committed is ever compacted.
   */
  predicate MayBe(s: Server, cap: nat, full: bool) {
    if full then |s.log| >= cap else |s.log| < s.commit + cap
  }

  predicate Enabled(c: Cluster, ev: Event) {
    && ev.n < |c.servers|
    && match ev
       case Campaigns(n, full) => !c.servers[n].role.Leader? && MayBe(c.servers[n], c.cap, full)
       case HearsRequest(_, m) => m in c.net && m.RequestVote?
       case HearsVote(n, m, full) => m in c.net && m.VoteReply? && m.to == n && MayBe(c.servers[n], c.cap, full)
       case Submits(n, _) => c.servers[n].role.Leader? && MayBe(c.servers[n], c.cap, false)
       case Sends(n, to) =>
         c.servers[n].role.Leader? && to < |c.servers| && to != n && NextIndex(c.servers[n], to) <= |c.servers[n].log| + 1
       case HearsAppend(n, m, room) =>
         m in c.net && m.Append? && m.to == n && c.cap <= room <= c.servers[n].commit + c.cap
       case HearsAppendReply(n, m) => m in c.net && m.AppendReply? && m.to == n
       case Recounts(n) => c.servers[n].role.Leader?
       case LosesContact(n) => c.servers[n].role.Leader?
       case Restarts(_) => true
  }

  /** Record a vote; voting again for the same candidate changes nothing. */
  function Ballot(h: History, voter: Id, term: Term, candidate: Id, log: seq<Entry>): History {
    if (voter, term) in h.ballots then h
    else h.(ballots := h.ballots[(voter, term) := candidate], voteLogs := h.voteLogs[(voter, term) := log])
  }

  /** Record a candidacy: the candidate's vote for itself and the log it stands with. */
  function Candidacy(h: History, n: Id, s: Server): History {
    Ballot(h, n, s.term + 1, n, s.log).(standLogs := h.standLogs[(n, s.term + 1) := s.log])
  }

  /** Record an election: the leader starts from the log it stood with. */
  function Election(h: History, n: Id, before: Server, after: Server): History {
    if !before.role.Leader? && after.role.Leader? then
      var t := after.term;
      h.(leaders := h.leaders[t := n], electors := h.electors[t := after.votes],
         startLogs := h.startLogs[t := before.log], termLogs := h.termLogs[t := after.log],
         acks := h.acks[(n, t) := |after.log|])
    else h
  }

  function Put(c: Cluster, n: Id, s: Server): Cluster
    requires n < |c.servers|
  {
    c.(servers := c.servers[n := s])
  }

  function Campaigning(c: Cluster, n: Id, full: bool): Cluster
    requires n < |c.servers|
  {
    var s := c.servers[n];
    var stood := Campaign(s, n);
    var after := LeadIfElected(stood, |c.servers|, full);
    Put(c, n, after).(net := c.net + {RequestVote(stood.term, n, |s.log|, LastTerm(s.log))},
                      h := Election(Candidacy(c.h, n, s), n, stood, after))
  }

  function Voting(c: Cluster, n: Id, m: Message): Cluster
    requires n < |c.servers| && m.RequestVote?
  {
    var s := c.servers[n];
    var after := OnRequestVote(s, m);
    Put(c, n, after).(net := c.net + {VoteReply(n, m.candidate, after.term, Grants(s, m))},
                      h := if Grants(s, m) then Ballot(c.h, n, m.term, m.candidate, s.log) else c.h)
  }

  function Counting(c: Cluster, n: Id, m: Message, full: bool): Cluster
    requires n < |c.servers| && m.VoteReply?
  {
    var after := OnVoteReply(c.servers[n], m, |c.servers|, full);
    Put(c, n, after).(h := Election(c.h, n, c.servers[n], after))
  }

  function Submitting(c: Cluster, n: Id, data: seq<uint8>): Cluster
    requires n < |c.servers|
  {
    var s := c.servers[n];
    var after := Submit(s, data);
    Put(c, n, after).(h := c.h.(termLogs := c.h.termLogs[s.term := after.log],
                                acks := c.h.acks[(n, s.term) := |after.log|]))
  }

  /** What a leader sends to a peer: as many entries from its next index on as fit a message. */
  function NextAppend(s: Server, n: Id, to: Id, batch: nat): Message
    requires NextIndex(s, to) <= |s.log| + 1
  {
    var prev := NextIndex(s, to) - 1;
    var count := if |s.log| - prev < batch then |s.log| - prev else batch;
    Append(n, to, s.term, prev, TermAt(s.log, prev), s.log[prev..prev + count], s.commit)
  }

  function Sending(c: Cluster, n: Id, to: Id): Cluster
    requires n < |c.servers| && NextIndex(c.servers[n], to) <= |c.servers[n].log| + 1
  {
    c.(net := c.net + {NextAppend(c.servers[n], n, to, c.batch)})
  }

  function Appending(c: Cluster, n: Id, m: Message, room: nat): Cluster
    requires n < |c.servers| && m.Append?
  {
    var s := c.servers[n];
    var after := OnAppend(s, m, room);
    var ok := Accepted(s, m);
    Put(c, n, after).(net := c.net + {AppendReply(n, m.leader, after.term, ok, |after.log|, HintFor(s, m))},
                      h := if ok then c.h.(acks := c.h.acks[(n, m.term) := Shared(c.h, n, m, after.log)]) else c.h)
  }

  /**
   * How far server n has now been in step with the leader whose message left it with this log: to the end
   * of the log where that is part of the leader's, else to the end of the message; never less than before.
   */
  function Shared(h: History, n: Id, m: Message, log: seq<Entry>): nat
    requires m.Append?
  {
    var before := if (n, m.term) in h.acks then h.acks[(n, m.term)] else 0;
    var now := if m.term in h.termLogs && log <= h.termLogs[m.term] then |log| else m.prevIndex + |m.entries|;
    if before > now then before else now
  }

  function Next(c: Cluster, ev: Event): Cluster
    requires Enabled(c, ev)
  {
    match ev
    case Campaigns(n, full) => Campaigning(c, n, full)
    case HearsRequest(n, m) => Voting(c, n, m)
    case HearsVote(n, m, full) => Counting(c, n, m, full)
    case Submits(n, data) => Submitting(c, n, data)
    case Sends(n, to) => Sending(c, n, to)
    case HearsAppend(n, m, room) => Appending(c, n, m, room)
    case HearsAppendReply(n, m) => Put(c, n, OnAppendReply(c.servers[n], n, m, |c.servers|))
    case Recounts(n) => Put(c, n, AdvanceCommit(c.servers[n], n, |c.servers|, |c.servers[n].log|))
    case LosesContact(n) => Put(c, n, c.servers[n].(role := Follower))
    case Restarts(n) => Put(c, n, Restart(c.servers[n]))
  }

  ghost predicate ValidRun(c: Cluster, evs: seq<Event>)
    decreases |evs|
  {
    evs != [] ==> Enabled(c, evs[0]) && ValidRun(Next(c, evs[0]), evs[1..])
  }

  function Run(c: Cluster, evs: seq<Event>): Cluster
    requires ValidRun(c, evs)
    decreases |evs|
  {
    if evs == [] then c else Run(Next(c, evs[0]), evs[1..])
  }
}
