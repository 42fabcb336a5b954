/**
 The invariants that hold in every run. Each speaks of one piece of the cluster and the history, so a
 step has to re-establish them only for the pieces it touches.
 */
module Invariants {
  import opened RaftTypes
  import opened RaftServer
  import opened Cluster
  import opened History
  import opened Quorums

  // ---- logs ----

  /** Entry i of the log was put there by the leader of its term, with everything before it. */
  ghost predicate Sourced(h: Hist, log: Log, i: nat)
    requires i < |log|
  {
    var t := log[i].term;
    && t in h.reigns
    && |h.reigns[t].start| <= i < |h.reigns[t].log|
    && log[..i + 1] == h.reigns[t].log[..i + 1]
  }

  ghost predicate LogOk(h: Hist, log: Log) {
    forall i :: 0 <= i < |log| ==> Sourced(h, log, i)
  }

  // ---- the history itself ----

  ghost predicate ReignOk(h: Hist, t: nat)
    requires t in h.reigns
  {
    var r := h.reigns[t];
    && 1 <= t
    && r.leader < |h.terms| && t <= h.terms[r.leader]
    && IsQuorum(|h.terms|, r.voters)
    && (forall v :: v in r.voters ==> Ballot(v, t) in h.firstVote && h.firstVote[Ballot(v, t)] == r.leader)
    && Ballot(r.leader, t) in h.ran && h.ran[Ballot(r.leader, t)] == r.start
    && r.start <= r.log
    && (forall i :: 0 <= i < |r.start| ==> r.log[i].term < t)
    && (forall i :: |r.start| <= i < |r.log| ==> r.log[i].term == t)
    && LogOk(h, r.log)
  }

  ghost predicate VoteOk(h: Hist, b: Ballot)
    requires b in h.firstVote
  {
    && b.server < |h.terms| && 1 <= b.term <= h.terms[b.server]
    && (h.firstVote[b] != b.server ==> Ballot(h.firstVote[b], b.term) in h.ran)
  }

  ghost predicate RanOk(h: Hist, b: Ballot)
    requires b in h.ran
  {
    b.server < |h.terms| && b.term <= h.terms[b.server] && LogOk(h, h.ran[b])
  }

  ghost predicate AckedOk(h: Hist, b: Ballot)
    requires b in h.acked
  {
    && b.server < |h.terms| && b.term <= h.terms[b.server]
    && b.term in h.reigns && h.reigns[b.term].leader != b.server
    && |h.reigns[b.term].start| <= h.acked[b] <= |h.reigns[b.term].log|
  }

  ghost predicate HistOk(h: Hist) {
    && (forall t :: t in h.reigns ==> ReignOk(h, t))
    && (forall b :: b in h.firstVote ==> VoteOk(h, b))
    && (forall b :: b in h.ran ==> RanOk(h, b))
    && (forall b :: b in h.acked ==> AckedOk(h, b))
  }

  // ---- one server ----

  /** Between steps the persister holds exactly what is in memory; nothing saved reads as zeroes. */
  predicate DiskOk(s: Server) {
    if s.disk.None? then s.currentTerm == 0 && s.votedFor == 0 && s.logs == []
    else s.disk.value == Saved(s.currentTerm, s.votedFor, s.logs)
  }

  /** What votedFor says about the votes of the current term. Term 0 has no elections: there
      votedFor is the zero value, which is not a vote. */
  ghost predicate VotedForOk(h: Hist, p: nat, s: Server) {
    var b := Ballot(p, s.currentTerm);
    && -1 <= s.votedFor
    && (s.currentTerm > 0 && s.votedFor == -1 ==> b !in h.firstVote)
    && (s.currentTerm > 0 && s.votedFor >= 0 ==>
          || (b in h.firstVote && h.firstVote[b] == s.votedFor)
          || (s.currentTerm in h.reigns && h.reigns[s.currentTerm].leader == s.votedFor))
  }

  ghost predicate CandidateOk(h: Hist, p: nat, s: Server) {
    var b := Ballot(p, s.currentTerm);
    && 1 <= s.currentTerm
    && b in h.firstVote && h.firstVote[b] == p
    && !(s.currentTerm in h.reigns && h.reigns[s.currentTerm].leader == p)
    && (!s.due ==>
          && b in h.ran && h.ran[b] == s.logs
          && b in h.counted && |h.counted[b]| == s.agreed && h.counted[b] <= Below(|h.terms|)
          && forall v :: v in h.counted[b] ==>
               Ballot(v, s.currentTerm) in h.firstVote && h.firstVote[Ballot(v, s.currentTerm)] == p)
  }

  ghost predicate LeaderOk(h: Hist, p: nat, s: Server) {
    var n := |h.terms|;
    && s.currentTerm in h.reigns && h.reigns[s.currentTerm].leader == p
    && |s.nextIndex| == n && |s.matchIndex| == n
    && (forall q :: 0 <= q < n ==> 1 <= s.nextIndex[q] <= |s.logs| + 1)
    && (forall q :: 0 <= q < n ==> s.matchIndex[q] <= Get(h.acked, Ballot(q, s.currentTerm)))
  }

  ghost predicate ServerOk(h: Hist, p: nat, s: Server) {
    && p < |h.terms|
    && s.currentTerm == h.terms[p]
    && DiskOk(s)
    && VotedForOk(h, p, s)
    && LogOk(h, s.logs)
    && (forall i :: 0 <= i < |s.logs| ==> s.logs[i].term <= s.currentTerm)
    && s.commitIndex <= |s.logs|
    && (s.due ==> 1 <= s.currentTerm && Ballot(p, s.currentTerm) !in h.ran)
    && (s.role == Candidate ==> CandidateOk(h, p, s))
    && (s.role == Leader ==> LeaderOk(h, p, s))
    && (s.currentTerm in h.reigns && h.reigns[s.currentTerm].leader == p ==> s.logs == h.reigns[s.currentTerm].log)
  }

  // ---- one call ----

  ghost predicate VoteCallOk(h: Hist, key: VoteKey, call: VoteCall) {
    var b := Ballot(key.src, key.term);
    && key.src < |h.terms| && key.dst < |h.terms| && key.src != key.dst && 1 <= key.term
    && b in h.ran
    && call.args == VoteArgs(key.term, key.src, |h.ran[b]|, LastTerm(h.ran[b]))
    && (!call.status.VoteDone? && b in h.counted ==> key.dst !in h.counted[b])
    && (call.status.VoteReplied? && call.status.reply.voteGranted ==>
          && call.status.reply.term == key.term
          && var v := Ballot(key.dst, key.term);
             || (v in h.firstVote && h.firstVote[v] == key.src)
             || (key.term in h.reigns && h.reigns[key.term].leader == key.src))
  }

  /** A message carries the leader's whole log as it was when the message was built. */
  ghost predicate AppendArgsOk(h: Hist, src: nat, args: AppendArgs) {
    && args.term in h.reigns
    && var r := h.reigns[args.term];
    && r.leader == src == args.leaderId
    && |r.start| <= args.Reach() <= |r.log|
    && args.entries == r.log[args.prevLogIndex..args.Reach()]
    && args.prevLogTerm == (if args.prevLogIndex == 0 then 0 else r.log[args.prevLogIndex - 1].term)
    && args.leaderCommit <= args.Reach()
  }

  ghost predicate AppendCallOk(h: Hist, call: AppendCall) {
    && call.src < |h.terms| && call.dst < |h.terms| && call.src != call.dst
    && AppendArgsOk(h, call.src, call.args)
    && (call.status.AppendReplied? && call.status.reply.success ==>
          call.args.Reach() <= Get(h.acked, Ballot(call.dst, call.args.term)))
  }

  /** Messages of one term, in the order in which they were built, carry longer and longer logs. */
  ghost predicate Growing(appends: seq<AppendCall>) {
    forall i, j :: 0 <= i < j < |appends| && appends[i].args.term == appends[j].args.term
      ==> appends[i].args.Reach() <= appends[j].args.Reach()
  }

  ghost predicate ServersOk(h: Hist, servers: seq<Server>) {
    forall p :: 0 <= p < |servers| ==> ServerOk(h, p, servers[p])
  }

  ghost predicate VotesOk(h: Hist, votes: map<VoteKey, VoteCall>) {
    forall key :: key in votes ==> VoteCallOk(h, key, votes[key])
  }

  ghost predicate AppendsOk(h: Hist, appends: seq<AppendCall>) {
    forall id :: 0 <= id < |appends| ==> AppendCallOk(h, appends[id])
  }

  ghost predicate Inv(c: State, h: Hist) {
    && |h.terms| == |c.servers|
    && HistOk(h)
    && ServersOk(h, c.servers)
    && VotesOk(h, c.votes)
    && AppendsOk(h, c.appends)
    && Growing(c.appends)
  }
}
