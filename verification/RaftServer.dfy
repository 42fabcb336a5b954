/**
 One Raft peer as a value, and each locked region of the peer as a function on that value.
 The class in RaftPeer.dfy is proved against these functions; the cluster in Cluster.dfy steps with them.
 */
module RaftServer {
  import opened RaftTypes

  /** `agreed` is the counter shared by the goroutines of the latest doVote; `due` holds between the
      election timeout and the doVote that follows it; `disk` is what the persister holds. */
  datatype Server = Server(
    currentTerm: nat,
    votedFor: int,
    logs: Log,
    commitIndex: nat,
    nextIndex: seq<nat>,
    matchIndex: seq<nat>,
    role: Role,
    agreed: nat,
    due: bool,
    disk: Option<Saved>)

  function Persist(s: Server): Server {
    s.(disk := Some(Saved(s.currentTerm, s.votedFor, s.logs)))
  }

  /** Make: a peer starts from what the persister holds; an empty persister reads as the zero triple. */
  function Boot(disk: Option<Saved>): Server {
    var saved := if disk.Some? then disk.value else Saved(0, 0, []);
    Server(saved.currentTerm, saved.votedFor, saved.logs, 0, [], [], Follower, 0, false, disk)
  }

  /** A reply that carries a higher term turns the peer into a follower of that term. */
  function SeeTerm(s: Server, term: nat): Server {
    if term > s.currentTerm then
      Persist(s.(currentTerm := term, role := Follower, votedFor := -1))
    else
      s
  }

  // ---- elections ----

  function Timeout(s: Server, me: nat): Server {
    Persist(s.(currentTerm := s.currentTerm + 1, votedFor := me, role := Candidate, due := true))
  }

  function Launch(s: Server): Server {
    s.(agreed := 1, due := false)
  }

  function LaunchArgs(s: Server, me: nat): VoteArgs {
    VoteArgs(s.currentTerm, me, |s.logs|, LastTerm(s.logs))
  }

  /** The election restriction: the candidate's log is at least as recent as this one. */
  predicate UpToDate(log: Log, args: VoteArgs) {
    || LastTerm(log) < args.lastLogTerm
    || (LastTerm(log) == args.lastLogTerm && |log| <= args.lastLogIndex)
  }

  function RequestVote(s: Server, args: VoteArgs): (Server, VoteReply) {
    if args.term < s.currentTerm then
      (Persist(s), VoteReply(s.currentTerm, false))
    else
      var s1 := if args.term > s.currentTerm
                then s.(role := Follower, votedFor := -1, currentTerm := args.term)
                else s;
      if (s1.votedFor == -1 || s1.votedFor == args.candidateId) && UpToDate(s1.logs, args) then
        (Persist(s1.(role := Follower, votedFor := args.candidateId)), VoteReply(s1.currentTerm, true))
      else
        (Persist(s1), VoteReply(s1.currentTerm, false))
  }

  predicate Counts(s: Server, args: VoteArgs, reply: VoteReply) {
    reply.voteGranted && args.term == SeeTerm(s, reply.term).currentTerm && SeeTerm(s, reply.term).role == Candidate
  }

  function HandleVoteReply(s: Server, n: nat, args: VoteArgs, reply: VoteReply): Server {
    var s1 := SeeTerm(s, reply.term);
    if Counts(s, args, reply) then
      var s2 := s1.(agreed := s1.agreed + 1);
      if s2.agreed * 2 > n then
        Persist(s2.(role := Leader,
                    nextIndex := seq(n, i => |s2.logs| + 1),
                    matchIndex := seq(n, i => 0)))
      else
        s2
    else
      s1
  }

  // ---- log replication ----

  function Start(s: Server, command: Command): Server {
    if s.role == Leader then
      Persist(s.(logs := s.logs + [Entry(command, s.currentTerm)]))
    else
      s
  }

  /** Building a message reads nextIndex and the log; these are the indices it may use. */
  predicate BuildInRange(s: Server, peer: nat) {
    && peer < |s.nextIndex|
    && 1 <= s.nextIndex[peer] <= |s.logs| + 1
  }

  function BuildArgs(s: Server, me: nat, peer: nat): AppendArgs
    requires BuildInRange(s, peer)
  {
    var index := s.nextIndex[peer];
    var entries := if |s.logs| >= index then s.logs[index - 1..] else [];
    var term := if index > 1 then s.logs[index - 2].term else 0;
    AppendArgs(s.currentTerm, me, index - 1, term, entries, s.commitIndex)
  }

  function Build(s: Server, me: nat, peer: nat): Server
    requires BuildInRange(s, peer)
  {
    s.(nextIndex := s.nextIndex[peer := BuildArgs(s, me, peer).Reach() + 1])
  }

  /** The messages sent on applyCh while the commit index moves from `from` to `to`. */
  function Batch(log: Log, from: nat, to: nat): seq<ApplyMsg>
    requires from < to ==> to <= |log|
  {
    if from < to then seq(to - from, i requires 0 <= i < to - from => ApplyMsg(from + i + 1, log[from + i].command))
    else []
  }

  predicate PrefixMatches(log: Log, args: AppendArgs) {
    args.prevLogIndex > 0 ==>
      |log| >= args.prevLogIndex && log[args.prevLogIndex - 1].term == args.prevLogTerm
  }

  predicate Accepts(s: Server, args: AppendArgs) {
    args.term >= s.currentTerm && PrefixMatches(s.logs, args)
  }

  /** An accepted message must not make the apply loop read past the end of the new log. */
  predicate AppendInRange(s: Server, args: AppendArgs) {
    Accepts(s, args) && s.commitIndex < args.leaderCommit ==> args.leaderCommit <= args.Reach()
  }

  function AppendEntries(s: Server, args: AppendArgs): (Server, AppendReply) {
    if args.term < s.currentTerm then
      (Persist(s), AppendReply(s.currentTerm, false, 0))
    else
      var s1 := s.(currentTerm := args.term, role := Follower, votedFor := args.leaderId);
      if PrefixMatches(s.logs, args) then
        var s2 := s1.(logs := s.logs[..args.prevLogIndex] + args.entries, commitIndex := args.leaderCommit);
        (Persist(s2), AppendReply(args.term, true, 0))
      else
        (Persist(s1), AppendReply(args.term, false, |s.logs|))
  }

  function AppendOutput(s: Server, args: AppendArgs): seq<ApplyMsg>
    requires AppendInRange(s, args)
  {
    if Accepts(s, args) then
      Batch(AppendEntries(s, args).0.logs, s.commitIndex, args.leaderCommit)
    else
      []
  }

  // ---- commitment ----

  /** How many of the peers j <= .. < n other than `me` have matchIndex above iter. */
  function CountFrom(matchIndex: seq<nat>, me: nat, iter: nat, j: nat): nat
    decreases |matchIndex| - j
  {
    if j >= |matchIndex| then 0
    else (if j != me && matchIndex[j] > iter then 1 else 0) + CountFrom(matchIndex, me, iter, j + 1)
  }

  predicate Majority(matchIndex: seq<nat>, me: nat, iter: nat) {
    2 * (1 + CountFrom(matchIndex, me, iter, 0)) > |matchIndex|
  }

  /** The commit loop, from position iter on with the commit index at ci. */
  function CommitScan(s: Server, me: nat, iter: nat, ci: nat): nat
    decreases |s.logs| - iter
  {
    if iter >= |s.logs| then ci
    else if s.logs[iter].term < s.currentTerm then CommitScan(s, me, iter + 1, ci)
    else if Majority(s.matchIndex, me, iter) then CommitScan(s, me, iter + 1, iter + 1)
    else ci
  }

  predicate AppendReplyInRange(s: Server, n: nat, peer: nat) {
    s.role == Leader ==> peer < n && |s.nextIndex| == n && |s.matchIndex| == n
  }

  predicate Advances(s: Server, args: AppendArgs, reply: AppendReply) {
    && reply.success
    && args.term == SeeTerm(s, reply.term).currentTerm
    && SeeTerm(s, reply.term).role == Leader
  }

  /** The peer just before the commit loop runs. */
  function Matched(s: Server, peer: nat, args: AppendArgs, reply: AppendReply): Server
    requires Advances(s, args, reply) && peer < |s.matchIndex|
  {
    var s1 := SeeTerm(s, reply.term);
    s1.(matchIndex := s1.matchIndex[peer := args.Reach()])
  }

  function HandleAppendReply(s: Server, me: nat, n: nat, peer: nat, args: AppendArgs, reply: AppendReply): Server
    requires AppendReplyInRange(s, n, peer)
  {
    var s1 := SeeTerm(s, reply.term);
    if Advances(s, args, reply) then
      var s2 := Matched(s, peer, args, reply);
      s2.(commitIndex := CommitScan(s2, me, s2.commitIndex, s2.commitIndex))
    else if s1.role == Leader && !reply.success then
      s1.(nextIndex := s1.nextIndex[peer := 1])
    else
      s1
  }

  lemma {:induction false} CommitScanRange(s: Server, me: nat, iter: nat, ci: nat)
    requires ci <= iter
    ensures ci <= CommitScan(s, me, iter, ci)
    ensures CommitScan(s, me, iter, ci) == ci || iter < CommitScan(s, me, iter, ci) <= |s.logs|
    decreases |s.logs| - iter
  {
    if iter < |s.logs| {
      if s.logs[iter].term < s.currentTerm {
        CommitScanRange(s, me, iter + 1, ci);
      } else if Majority(s.matchIndex, me, iter) {
        CommitScanRange(s, me, iter + 1, iter + 1);
      }
    }
  }

  function AppendReplyOutput(s: Server, me: nat, n: nat, peer: nat, args: AppendArgs, reply: AppendReply): seq<ApplyMsg>
    requires AppendReplyInRange(s, n, peer)
  {
    var after := HandleAppendReply(s, me, n, peer, args, reply);
    if Advances(s, args, reply) then
      var s2 := Matched(s, peer, args, reply);
      CommitScanRange(s2, me, s2.commitIndex, s2.commitIndex);
      Batch(s2.logs, s.commitIndex, after.commitIndex)
    else
      []
  }
}
