/**
 The rules that a peer keeps, stated over its fields before and after: what Figure 2 of the Raft paper asks
 for, as far as the program does it, and what the program does differently. No rule mentions the functions
 that compute the steps; a lemma for each step says that the step keeps its rule.
 */
module PeerRules {
  import opened RaftTypes
  import opened RaftServer
  import opened CommitRule

  ghost predicate Saves(s: Server) {
    s.disk == Some(Saved(s.currentTerm, s.votedFor, s.logs))
  }

  /** What only a candidate or a leader uses. */
  ghost predicate SameOffice(s: Server, s': Server) {
    s'.nextIndex == s.nextIndex && s'.matchIndex == s.matchIndex && s'.agreed == s.agreed && s'.due == s.due
  }

  /** The pair (term of the last entry, length), compared as a dictionary does; an empty log has term 0. */
  predicate NotAhead(log: Log, lastTerm: nat, lastIndex: nat) {
    var own := if |log| == 0 then 0 else log[|log| - 1].term;
    own < lastTerm || (own == lastTerm && |log| <= lastIndex)
  }

  // ---- starting, elections ----

  ghost predicate BootRule(disk: Option<Saved>, s': Server) {
    && s'.disk == disk && s'.role == Follower && s'.commitIndex == 0 && !s'.due
    && s'.nextIndex == [] && s'.matchIndex == [] && s'.agreed == 0
    && (disk.None? ==> s'.currentTerm == 0 && s'.votedFor == 0 && s'.logs == [])
    && (disk.Some? ==> disk.value == Saved(s'.currentTerm, s'.votedFor, s'.logs))
  }

  ghost predicate TimeoutRule(s: Server, me: nat, s': Server) {
    && s'.currentTerm == s.currentTerm + 1 && s'.votedFor == me && s'.role == Candidate && s'.due && Saves(s')
    && s'.logs == s.logs && s'.commitIndex == s.commitIndex
    && s'.nextIndex == s.nextIndex && s'.matchIndex == s.matchIndex && s'.agreed == s.agreed
  }

  /** The candidate starts with its own vote and describes the end of its log. */
  ghost predicate LaunchRule(s: Server, me: nat, s': Server, args: VoteArgs) {
    && s' == s.(agreed := 1, due := false)
    && args.term == s.currentTerm && args.candidateId == me && args.lastLogIndex == |s.logs|
    && (|s.logs| == 0 ==> args.lastLogTerm == 0)
    && (|s.logs| > 0 ==> args.lastLogTerm == s.logs[|s.logs| - 1].term)
  }

  /** A vote is granted exactly if the term is not old, the vote is free or the candidate's already, and the
      peer's log is not ahead. A newer term alone makes a follower without a vote. */
  ghost predicate VoteRule(s: Server, args: VoteArgs, s': Server, reply: VoteReply) {
    var newer := args.term > s.currentTerm;
    && (reply.voteGranted <==>
        && args.term >= s.currentTerm
        && (newer || s.votedFor == -1 || s.votedFor == args.candidateId)
        && NotAhead(s.logs, args.lastLogTerm, args.lastLogIndex))
    && s'.currentTerm == (if newer then args.term else s.currentTerm) && reply.term == s'.currentTerm
    && s'.votedFor == (if reply.voteGranted then args.candidateId else if newer then -1 else s.votedFor)
    && s'.role == (if reply.voteGranted || newer then Follower else s.role)
    && s'.logs == s.logs && s'.commitIndex == s.commitIndex && SameOffice(s, s') && Saves(s')
  }

  /** A higher term in a reply is taken over, without a vote, and saved. */
  ghost predicate TermRule(s: Server, term: nat, s': Server) {
    if term > s.currentTerm then
      && s'.currentTerm == term && s'.role == Follower && s'.votedFor == -1 && Saves(s')
      && s'.logs == s.logs && s'.commitIndex == s.commitIndex && SameOffice(s, s')
    else s' == s
  }

  /** A granted vote of the candidate's term counts; a majority, and nothing less, makes the leader. */
  ghost predicate VoteReplyRule(s: Server, n: nat, args: VoteArgs, reply: VoteReply, s': Server) {
    if reply.term > s.currentTerm then TermRule(s, reply.term, s')
    else if reply.voteGranted && args.term == s.currentTerm && s.role == Candidate then
      && s'.agreed == s.agreed + 1
      && s'.currentTerm == s.currentTerm && s'.votedFor == s.votedFor && s'.logs == s.logs
      && s'.commitIndex == s.commitIndex && s'.due == s.due
      && (s'.role == Leader <==> 2 * (s.agreed + 1) > n)
      && (s'.role == Leader ==>
            && Saves(s') && |s'.nextIndex| == n && |s'.matchIndex| == n
            && forall q :: 0 <= q < n ==> s'.nextIndex[q] == |s.logs| + 1 && s'.matchIndex[q] == 0)
      && (s'.role != Leader ==> s' == s.(agreed := s.agreed + 1))
    else s' == s
  }

  // ---- replication ----

  ghost predicate StartRule(s: Server, command: Command, s': Server) {
    if s.role == Leader then
      && s'.logs == s.logs + [Entry(command, s.currentTerm)] && Saves(s')
      && s'.currentTerm == s.currentTerm && s'.votedFor == s.votedFor && s'.role == Leader
      && s'.commitIndex == s.commitIndex && SameOffice(s, s')
    else s' == s
  }

  /** The message holds everything from nextIndex on, and nextIndex is moved past it at once. */
  ghost predicate BuildRule(s: Server, me: nat, peer: nat, s': Server, args: AppendArgs) {
    && peer < |s.nextIndex| && 1 <= s.nextIndex[peer] <= |s.logs| + 1
    && args.term == s.currentTerm && args.leaderId == me && args.leaderCommit == s.commitIndex
    && args.prevLogIndex == s.nextIndex[peer] - 1 && args.entries == s.logs[args.prevLogIndex..]
    && args.prevLogTerm == (if args.prevLogIndex == 0 then 0 else s.logs[args.prevLogIndex - 1].term)
    && s' == s.(nextIndex := s.nextIndex[peer := |s.logs| + 1])
  }

  /** The messages for the entries after `from` up to `to`, in order. */
  ghost predicate Delivers(log: Log, from: nat, to: nat, sent: seq<ApplyMsg>) {
    if from < to then
      && to <= |log| && |sent| == to - from
      && forall k :: 0 <= k < |sent| ==> sent[k] == ApplyMsg(from + k + 1, log[from + k].command)
    else sent == []
  }

  /** A message is accepted exactly if its term is not old and the entry before its entries is there with the
      right term. Then the log is cut there, whatever follows, and the leader's commit index is taken over. */
  ghost predicate AppendRule(s: Server, args: AppendArgs, s': Server, reply: AppendReply, sent: seq<ApplyMsg>) {
    var stale, prev := args.term < s.currentTerm, args.prevLogIndex;
    && (reply.success <==>
        !stale && (prev == 0 || (|s.logs| >= prev && s.logs[prev - 1].term == args.prevLogTerm)))
    && (reply.success ==>
          && s'.logs == s.logs[..prev] + args.entries && s'.commitIndex == args.leaderCommit && reply.len == 0
          && Delivers(s'.logs, s.commitIndex, args.leaderCommit, sent))
    && (!reply.success ==>
          && s'.logs == s.logs && s'.commitIndex == s.commitIndex && sent == []
          && reply.len == (if stale then 0 else |s.logs|))
    && s'.currentTerm == (if stale then s.currentTerm else args.term) && reply.term == s'.currentTerm
    && s'.role == (if stale then s.role else Follower) && s'.votedFor == (if stale then s.votedFor else args.leaderId)
    && SameOffice(s, s') && Saves(s')
  }

  /** Figure 2, from a leader whose matchIndex is already updated: the largest committable N, if there is one. */
  ghost predicate CommitsLargest(s: Server, me: nat, k: nat) {
    && (k != s.commitIndex <==> exists N: nat :: Committable(s, me, N))
    && (k != s.commitIndex ==> Committable(s, me, k))
    && forall N: nat :: Committable(s, me, N) ==> N <= k
  }

  /** A success of the leader's term moves matchIndex to the end of the message, whether or not it had entries,
      and then the commit index; a failure of any term sends the peer back to the first entry. */
  ghost predicate AppendReplyRule(s: Server, me: nat, peer: nat, args: AppendArgs, reply: AppendReply,
                                  s': Server, sent: seq<ApplyMsg>) {
    if reply.term > s.currentTerm then TermRule(s, reply.term, s') && sent == []
    else if s.role != Leader then s' == s && sent == []
    else if !reply.success then peer < |s.nextIndex| && s' == s.(nextIndex := s.nextIndex[peer := 1]) && sent == []
    else if args.term == s.currentTerm then
      && peer < |s.matchIndex|
      && var matched := s.(matchIndex := s.matchIndex[peer := args.prevLogIndex + |args.entries|]);
         && s' == matched.(commitIndex := s'.commitIndex)
         && (TermsSorted(s) ==> CommitsLargest(matched, me, s'.commitIndex))
         && s.commitIndex <= s'.commitIndex && Delivers(s.logs, s.commitIndex, s'.commitIndex, sent)
    else s' == s && sent == []
  }

  // ---- the steps keep the rules ----

  lemma BootKeepsRule(disk: Option<Saved>)
    ensures BootRule(disk, Boot(disk))
  {
  }

  lemma TimeoutKeepsRule(s: Server, me: nat)
    ensures TimeoutRule(s, me, Timeout(s, me))
  {
  }

  lemma LaunchKeepsRule(s: Server, me: nat)
    ensures LaunchRule(s, me, Launch(s), LaunchArgs(s, me))
  {
  }

  lemma RequestVoteKeepsRule(s: Server, args: VoteArgs)
    ensures VoteRule(s, args, RequestVote(s, args).0, RequestVote(s, args).1)
  {
  }

  lemma SeeTermKeepsRule(s: Server, term: nat)
    ensures TermRule(s, term, SeeTerm(s, term))
  {
  }

  lemma VoteReplyKeepsRule(s: Server, n: nat, args: VoteArgs, reply: VoteReply)
    ensures VoteReplyRule(s, n, args, reply, HandleVoteReply(s, n, args, reply))
  {
  }

  lemma StartKeepsRule(s: Server, command: Command)
    ensures StartRule(s, command, Start(s, command))
  {
  }

  lemma BuildKeepsRule(s: Server, me: nat, peer: nat)
    requires BuildInRange(s, peer)
    ensures BuildRule(s, me, peer, Build(s, me, peer), BuildArgs(s, me, peer))
  {
    var args := BuildArgs(s, me, peer);
    assert args.entries == s.logs[args.prevLogIndex..];
  }

  lemma AppendEntriesKeepsRule(s: Server, args: AppendArgs)
    requires AppendInRange(s, args)
    ensures AppendRule(s, args, AppendEntries(s, args).0, AppendEntries(s, args).1, AppendOutput(s, args))
  {
  }

  lemma AppendReplyKeepsRule(s: Server, me: nat, n: nat, peer: nat, args: AppendArgs, reply: AppendReply)
    requires AppendReplyInRange(s, n, peer)
    ensures AppendReplyRule(s, me, peer, args, reply, HandleAppendReply(s, me, n, peer, args, reply),
                            AppendReplyOutput(s, me, n, peer, args, reply))
  {
    hide Committable;
    if Advances(s, args, reply) {
      var s2 := Matched(s, peer, args, reply);
      CommitScanRange(s2, me, s2.commitIndex, s2.commitIndex);
      if TermsSorted(s) {
        CommitLoopIsFigure2(s2, me);
      }
    }
  }
}
