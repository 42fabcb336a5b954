/**
 N peers and a network that loses, delays and reorders messages. A step is one locked region of one
 peer. A call is kept from the moment it is made: it waits, its handler runs at most once, and its reply
 reaches the goroutine that asked at most once. A call that stays Waiting or Replied for ever is a lost
 request or a lost reply.
 */
module Cluster {
  import opened RaftTypes
  import opened RaftServer

  /** A RequestVote call is named by who asks, who answers and the term it is about. */
  datatype VoteKey = VoteKey(src: nat, dst: nat, term: nat)

  datatype VoteStatus = VoteWaiting | VoteReplied(reply: VoteReply) | VoteDone

  datatype VoteCall = VoteCall(args: VoteArgs, status: VoteStatus)

  datatype AppendStatus = AppendWaiting | AppendReplied(reply: AppendReply) | AppendDone

  /** AppendEntries calls are numbered in the order in which they are built. */
  datatype AppendCall = AppendCall(src: nat, dst: nat, args: AppendArgs, status: AppendStatus)

  datatype State = State(
    servers: seq<Server>,
    votes: map<VoteKey, VoteCall>,
    appends: seq<AppendCall>)

  datatype Step =
    | StepTimeout(p: nat)
    | StepLaunch(p: nat)
    | StepRequestVote(key: VoteKey)
    | StepVoteReply(key: VoteKey)
    | StepStart(p: nat, command: Command)
    | StepBuild(p: nat, peer: nat)
    | StepAppendEntries(id: nat)
    | StepAppendReply(id: nat)
    | StepCrash(p: nat)

  function Initial(n: nat): State {
    State(seq(n, i => Boot(None)), map[], [])
  }

  predicate Enabled(c: State, step: Step) {
    var n := |c.servers|;
    match step
    case StepTimeout(p) => p < n && !c.servers[p].due
    case StepLaunch(p) => p < n && c.servers[p].due
    case StepRequestVote(key) => key.dst < n && key in c.votes && c.votes[key].status.VoteWaiting?
    case StepVoteReply(key) => key.src < n && key in c.votes && c.votes[key].status.VoteReplied?
    case StepStart(p, command) => p < n
    case StepBuild(p, peer) => p < n && peer < n && p != peer && c.servers[p].role == Leader
    case StepAppendEntries(id) => id < |c.appends| && c.appends[id].dst < n && c.appends[id].status.AppendWaiting?
    case StepAppendReply(id) => id < |c.appends| && c.appends[id].src < n && c.appends[id].status.AppendReplied?
    case StepCrash(p) => p < n
  }

  /** No slice or index of the code that runs in this step is out of range. */
  predicate InRange(c: State, step: Step)
    requires Enabled(c, step)
  {
    match step
    case StepBuild(p, peer) => BuildInRange(c.servers[p], peer)
    case StepAppendEntries(id) => AppendInRange(c.servers[c.appends[id].dst], c.appends[id].args)
    case StepAppendReply(id) =>
      var call := c.appends[id];
      AppendReplyInRange(c.servers[call.src], |c.servers|, call.dst)
    case _ => true
  }

  /** The peer at which a step runs. */
  function Actor(c: State, step: Step): nat
    requires Enabled(c, step)
  {
    match step
    case StepTimeout(p) => p
    case StepLaunch(p) => p
    case StepRequestVote(key) => key.dst
    case StepVoteReply(key) => key.src
    case StepStart(p, command) => p
    case StepBuild(p, peer) => p
    case StepAppendEntries(id) => c.appends[id].dst
    case StepAppendReply(id) => c.appends[id].src
    case StepCrash(p) => p
  }

  /** What the step makes of the peer at which it runs. */
  function After(c: State, step: Step): Server
    requires Enabled(c, step) && InRange(c, step)
  {
    var n := |c.servers|;
    match step
    case StepTimeout(p) => Timeout(c.servers[p], p)
    case StepLaunch(p) => Launch(c.servers[p])
    case StepRequestVote(key) => RequestVote(c.servers[key.dst], c.votes[key].args).0
    case StepVoteReply(key) =>
      HandleVoteReply(c.servers[key.src], n, c.votes[key].args, c.votes[key].status.reply)
    case StepStart(p, command) => Start(c.servers[p], command)
    case StepBuild(p, peer) => Build(c.servers[p], p, peer)
    case StepAppendEntries(id) => AppendEntries(c.servers[c.appends[id].dst], c.appends[id].args).0
    case StepAppendReply(id) =>
      var call := c.appends[id];
      HandleAppendReply(c.servers[call.src], call.src, n, call.dst, call.args, call.status.reply)
    case StepCrash(p) => Boot(c.servers[p].disk)
  }

  /** One RequestVote call for each other peer. */
  function NewVotes(n: nat, p: nat, args: VoteArgs): map<VoteKey, VoteCall> {
    map q: nat | q < n && q != p :: VoteKey(p, q, args.term) := VoteCall(args, VoteWaiting)
  }

  function VotesAfter(c: State, step: Step): map<VoteKey, VoteCall>
    requires Enabled(c, step)
  {
    match step
    case StepLaunch(p) => c.votes + NewVotes(|c.servers|, p, LaunchArgs(c.servers[p], p))
    case StepRequestVote(key) =>
      var call := c.votes[key];
      c.votes[key := call.(status := VoteReplied(RequestVote(c.servers[key.dst], call.args).1))]
    case StepVoteReply(key) => c.votes[key := c.votes[key].(status := VoteDone)]
    case _ => c.votes
  }

  function AppendsAfter(c: State, step: Step): seq<AppendCall>
    requires Enabled(c, step) && InRange(c, step)
  {
    match step
    case StepBuild(p, peer) => c.appends + [AppendCall(p, peer, BuildArgs(c.servers[p], p, peer), AppendWaiting)]
    case StepAppendEntries(id) =>
      var call := c.appends[id];
      c.appends[id := call.(status := AppendReplied(AppendEntries(c.servers[call.dst], call.args).1))]
    case StepAppendReply(id) => c.appends[id := c.appends[id].(status := AppendDone)]
    case _ => c.appends
  }

  function Apply(c: State, step: Step): State
    requires Enabled(c, step) && InRange(c, step)
  {
    State(c.servers[Actor(c, step) := After(c, step)], VotesAfter(c, step), AppendsAfter(c, step))
  }

  /** What the actor sends on its applyCh during the step. */
  function Output(c: State, step: Step): seq<ApplyMsg>
    requires Enabled(c, step) && InRange(c, step)
  {
    match step
    case StepAppendEntries(id) => AppendOutput(c.servers[c.appends[id].dst], c.appends[id].args)
    case StepAppendReply(id) =>
      var call := c.appends[id];
      AppendReplyOutput(c.servers[call.src], call.src, |c.servers|, call.dst, call.args, call.status.reply)
    case _ => []
  }

  /** A step whose code would read out of range may do anything: that it never happens is a theorem. */
  ghost predicate Next(c: State, step: Step, c': State) {
    Enabled(c, step) && (InRange(c, step) ==> c' == Apply(c, step))
  }

  datatype Run = Run(states: seq<State>, steps: seq<Step>)

  ghost predicate IsRun(run: Run, n: nat) {
    && |run.states| == |run.steps| + 1
    && run.states[0] == Initial(n)
    && forall i :: 0 <= i < |run.steps| ==> Next(run.states[i], run.steps[i], run.states[i + 1])
  }
}
