/**
 Why the order of messages matters: a run of three servers in which a delayed heartbeat overtaken by a
 later message of the same leader makes two servers apply different commands at index 1.
 */
module Reordering {
  import opened RaftTypes
  import opened RaftServer
  import opened Cluster
  import opened History
  import opened Runs
  import opened RaftTheorems
  import opened SafetyTheorems

  ghost predicate Path(states: seq<State>, steps: seq<Step>) {
    && |states| == |steps| + 1
    && forall i :: 0 <= i < |steps| ==>
         Enabled(states[i], steps[i]) && InRange(states[i], steps[i]) && states[i + 1] == Apply(states[i], steps[i])
  }

  const EMPTY := Boot(None)

  function Voter(term: nat, votedFor: nat): Server {
    Persist(EMPTY.(currentTerm := term, votedFor := votedFor))
  }

  function Boss(term: nat, me: nat): Server {
    Persist(EMPTY.(currentTerm := term, votedFor := me, role := Leader, agreed := 2,
                   nextIndex := [1, 1, 1], matchIndex := [0, 0, 0]))
  }

  ghost predicate OneStep(c: State, step: Step, c': State) {
    Enabled(c, step) && InRange(c, step) && c' == Apply(c, step)
  }

  /** me, whose log is empty, times out and asks peer and the other server for their votes. */
  lemma Campaign(c: State, me: nat, peer: nat, term: nat) returns (c1: State, c2: State)
    requires |c.servers| == 3 && me < 3 && peer < 3 && me != peer && 1 <= term
    requires c.servers[me].currentTerm == term - 1 && c.servers[me].logs == [] && !c.servers[me].due
    ensures OneStep(c, StepTimeout(me), c1) && OneStep(c1, StepLaunch(me), c2)
    ensures
      var s := c2.servers[me];
      && c2 == State(c.servers[me := s], c.votes + NewVotes(3, me, VoteArgs(term, me, 0, 0)), c.appends)
      && s == Persist(c.servers[me].(currentTerm := term, votedFor := me, role := Candidate, agreed := 1, due := false))
  {
    c1 := Apply(c, StepTimeout(me));
    c2 := Apply(c1, StepLaunch(me));
  }

  /** peer, whose log is empty too, votes for me, and its vote makes me the leader. */
  lemma Wins(c: State, me: nat, peer: nat, term: nat) returns (c1: State, c2: State)
    requires |c.servers| == 3 && me < 3 && peer < 3 && me != peer && 1 <= term
    requires c.servers[peer] == EMPTY
    requires
      var s := c.servers[me];
      s.currentTerm == term && s.logs == [] && s.role == Candidate && s.agreed == 1
    requires VoteKey(me, peer, term) in c.votes
    requires c.votes[VoteKey(me, peer, term)] == VoteCall(VoteArgs(term, me, 0, 0), VoteWaiting)
    ensures
      var key := VoteKey(me, peer, term);
      && OneStep(c, StepRequestVote(key), c1) && OneStep(c1, StepVoteReply(key), c2)
      && c2.votes.Keys == c.votes.Keys && c2.appends == c.appends
    ensures
      var s := Persist(c.servers[me].(agreed := 2, role := Leader, nextIndex := [1, 1, 1], matchIndex := [0, 0, 0]));
      c2.servers == c.servers[peer := Voter(term, me)][me := s]
  {
    var key := VoteKey(me, peer, term);
    c1 := Apply(c, StepRequestVote(key));
    c2 := Apply(c1, StepVoteReply(key));
    assert c2.servers[me].nextIndex == [1, 1, 1] && c2.servers[me].matchIndex == [0, 0, 0];
  }

  lemma Election(c: State, me: nat, peer: nat, term: nat) returns (states: seq<State>, steps: seq<Step>)
    requires |c.servers| == 3 && me < 3 && peer < 3 && me != peer && 1 <= term
    requires c.servers[me].currentTerm == term - 1 && c.servers[me].logs == [] && !c.servers[me].due
    requires c.servers[me].commitIndex == 0 && c.servers[peer] == EMPTY
    ensures Path(states, steps) && states[0] == c && |steps| == 4 && |states| == 5
    ensures states[4].servers == c.servers[peer := Voter(term, me)][me := Boss(term, me)]
    ensures states[4].appends == c.appends
  {
    hide Apply, Enabled, InRange;
    var key := VoteKey(me, peer, term);
    var c1, c2 := Campaign(c, me, peer, term);
    assert key in NewVotes(3, me, VoteArgs(term, me, 0, 0));
    var c3, c4 := Wins(c2, me, peer, term);
    steps := [StepTimeout(me), StepLaunch(me), StepRequestVote(key), StepVoteReply(key)];
    states := [c, c1, c2, c3, c4];
  }

  lemma OneMatch(m: seq<nat>, me: nat, peer: nat)
    requires |m| == 3 && me < 3 && peer < 3 && me != peer && m == [0, 0, 0][peer := 1]
    ensures Majority(m, me, 0)
  {
    assert CountFrom(m, me, 0, 3) == 0;
    assert CountFrom(m, me, 0, 2) == if peer == 2 then 1 else 0;
    assert CountFrom(m, me, 0, 1) == if peer != 0 then 1 else 0;
  }

  /** One success reply out of two followers is a majority: the leader commits its only entry. */
  lemma CommitsIt(s: Server, me: nat, peer: nat, args: AppendArgs, reply: AppendReply, x: Command)
    requires me < 3 && peer < 3 && me != peer && s.role == Leader
    requires s.logs == [Entry(x, s.currentTerm)] && s.commitIndex == 0
    requires |s.nextIndex| == 3 && s.matchIndex == [0, 0, 0]
    requires reply.success && reply.term == args.term == s.currentTerm && args.Reach() == 1
    ensures AppendReplyInRange(s, 3, peer)
    ensures AppendReplyOutput(s, me, 3, peer, args, reply) == [ApplyMsg(1, x)]
    ensures
      var s' := HandleAppendReply(s, me, 3, peer, args, reply);
      s'.role == Leader && s'.currentTerm == s.currentTerm && s'.logs == s.logs && s'.commitIndex == 1
  {
    var s2 := Matched(s, peer, args, reply);
    OneMatch(s2.matchIndex, me, peer);
    assert CommitScan(s2, me, 1, 1) == 1;
    assert CommitScan(s2, me, 0, 0) == 1;
  }

  /** The leader appends x. */
  lemma Starts(c: State, me: nat, term: nat, x: Command) returns (c': State)
    requires |c.servers| == 3 && me < 3
    requires c.servers[me] == Boss(term, me).(nextIndex := c.servers[me].nextIndex)
    ensures OneStep(c, StepStart(me, x), c')
    ensures c' == c.(servers := c.servers[me := c'.servers[me]])
    ensures
      var s := c'.servers[me];
      s.logs == [Entry(x, term)] && s == c.servers[me].(logs := s.logs, disk := s.disk)
  {
    c' := Apply(c, StepStart(me, x));
  }

  lemma Sends(c: State, me: nat, peer: nat) returns (c': State)
    requires |c.servers| == 3 && me < 3 && peer < 3 && me != peer && c.servers[me].role == Leader
    requires |c.servers[me].nextIndex| == 3 && c.servers[me].nextIndex[peer] == 1
    ensures OneStep(c, StepBuild(me, peer), c')
    ensures
      var s := c.servers[me];
      && c' == State(c.servers[me := c'.servers[me]], c.votes, c.appends +
                     [AppendCall(me, peer, AppendArgs(s.currentTerm, me, 0, 0, s.logs, s.commitIndex), AppendWaiting)])
      && c'.servers[me] == s.(nextIndex := s.nextIndex[peer := |s.logs| + 1])
  {
    var s := c.servers[me];
    assert BuildArgs(s, me, peer).entries == s.logs;
    c' := Apply(c, StepBuild(me, peer));
  }

  lemma Delivers(c: State, id: nat) returns (c': State)
    requires id < |c.appends| && c.appends[id].dst < |c.servers| && c.appends[id].status.AppendWaiting?
    requires c.appends[id].args.prevLogIndex == 0 && c.appends[id].args.leaderCommit == 0
    requires c.servers[c.appends[id].dst].currentTerm <= c.appends[id].args.term
    ensures OneStep(c, StepAppendEntries(id), c')
    ensures
      var call := c.appends[id];
      var f, f' := c.servers[call.dst], c'.servers[call.dst];
      && c' == State(c.servers[call.dst := f'], c.votes,
                     c.appends[id := call.(status := AppendReplied(AppendReply(call.args.term, true, 0)))])
      && f' == Persist(f.(currentTerm := call.args.term, role := Follower, votedFor := call.args.leaderId,
                          logs := call.args.entries, commitIndex := 0))
  {
    var call := c.appends[id];
    var f := c.servers[call.dst];
    assert f.logs[..0] + call.args.entries == call.args.entries;
    assert AppendEntries(f, call.args).0.logs == call.args.entries;
    c' := Apply(c, StepAppendEntries(id));
  }

  /** A leader that has committed its one entry. */
  predicate Committed(s: Server, term: nat, x: Command) {
    s.role == Leader && s.currentTerm == term && s.logs == [Entry(x, term)] && s.commitIndex == 1
  }

  lemma Learns(c: State, id: nat, me: nat, peer: nat, x: Command) returns (c': State)
    requires |c.servers| == 3 && id < |c.appends| && me < 3 && peer < 3 && me != peer
    requires c.appends[id].src == me && c.appends[id].dst == peer
    requires
      var s, args := c.servers[me], c.appends[id].args;
      && c.appends[id].status == AppendReplied(AppendReply(args.term, true, 0))
      && s.role == Leader && s.logs == [Entry(x, s.currentTerm)] && s.commitIndex == 0
      && |s.nextIndex| == 3 && s.matchIndex == [0, 0, 0] && args.term == s.currentTerm && args.Reach() == 1
    ensures OneStep(c, StepAppendReply(id), c') && Output(c, StepAppendReply(id)) == [ApplyMsg(1, x)]
    ensures c' == State(c.servers[me := c'.servers[me]], c.votes, c.appends[id := c.appends[id].(status := AppendDone)])
    ensures Committed(c'.servers[me], c.servers[me].currentTerm, x)
  {
    CommitsIt(c.servers[me], me, peer, c.appends[id].args, c.appends[id].status.reply, x);
    c' := Apply(c, StepAppendReply(id));
  }

  /** Message id is for peer and of the term, and reaches so far. */
  predicate Carried(c: State, id: nat, peer: nat, term: nat, reach: nat) {
    && id < |c.appends| && c.appends[id].dst == peer
    && c.appends[id].args.term == term && c.appends[id].args.Reach() == reach
  }

  /** The leader appends x, sends it to peer, and peer's reply makes it commit x. */
  lemma Commit(c: State, me: nat, peer: nat, term: nat, x: Command) returns (states: seq<State>, steps: seq<Step>)
    requires |c.servers| == 3 && me < 3 && peer < 3 && me != peer
    requires c.servers[me] == Boss(term, me).(nextIndex := c.servers[me].nextIndex)
    requires |c.servers[me].nextIndex| == 3 && c.servers[me].nextIndex[peer] == 1
    requires c.servers[peer].currentTerm <= term
    ensures Path(states, steps) && states[0] == c && |steps| == 4 && |states| == 5
    ensures steps[2] == StepAppendEntries(|c.appends|)
    ensures Enabled(states[3], steps[3]) && InRange(states[3], steps[3])
    ensures Output(states[3], steps[3]) == [ApplyMsg(1, x)]
    ensures states[4].votes == c.votes && |states[4].servers| == 3 && |states[4].appends| == |c.appends| + 1
    ensures forall i :: 0 <= i < |c.appends| ==> states[4].appends[i] == c.appends[i]
    ensures forall q :: 0 <= q < 3 && q != me && q != peer ==> states[4].servers[q] == c.servers[q]
    ensures
      states[4].servers[peer] ==
      Persist(c.servers[peer].(currentTerm := term, role := Follower, votedFor := me,
                               logs := [Entry(x, term)], commitIndex := 0))
    ensures Carried(states[2], |c.appends|, peer, term, 1)
    ensures Enabled(states[2], steps[2]) && AcceptedIn(states[2], steps[2])
    ensures |states[3].servers| == 3 && IsLeader(states[3], me, term) && states[3].servers[me].commitIndex == 0
    ensures Committed(states[4].servers[me], term, x)
  {
    hide Apply, Output, Enabled, InRange;
    var id := |c.appends|;
    var c1 := Starts(c, me, term, x);
    var c2 := Sends(c1, me, peer);
    var c3 := Delivers(c2, id);
    var c4 := Learns(c3, id, me, peer, x);
    steps := [StepStart(me, x), StepBuild(me, peer), StepAppendEntries(id), StepAppendReply(id)];
    states := [c, c1, c2, c3, c4];
  }

  lemma Join(a: seq<State>, s: seq<Step>, b: seq<State>, t: seq<Step>)
    requires Path(a, s) && Path(b, t) && a[|s|] == b[0]
    ensures Path(a + b[1..], s + t)
  {
    hide Apply, Enabled, InRange;
    var states, steps := a + b[1..], s + t;
    forall i | 0 <= i < |steps|
      ensures OneStep(states[i], steps[i], states[i + 1])
    {
      if i < |s| {
        assert OneStep(a[i], s[i], a[i + 1]);
      } else {
        assert OneStep(b[i - |s|], t[i - |s|], b[i - |s| + 1]);
      }
    }
  }

  lemma Extend(a: seq<State>, s: seq<Step>, step: Step, c: State)
    requires Path(a, s) && OneStep(a[|s|], step, c)
    ensures Path(a + [c], s + [step])
  {
    Join(a, s, [a[|s|], c], [step]);
  }

  lemma PathIsRun(a: seq<State>, s: seq<Step>, i: nat)
    requires Path(a, s) && a[0] == Initial(3) && i < |s|
    ensures IsRun(Run(a, s), 3) && Enabled(a[i], s[i]) && OutputAt(Run(a, s), 3, i) == Output(a[i], s[i])
  {
  }

  /** For any two commands there is a run, in order except for one overtaken heartbeat, in which one
      server applies the first command at index 1 and another server applies the second one there. */
  lemma OvertakenHeartbeat(x: Command, y: Command) returns (run: Run)
    ensures IsRun(run, 3) && |run.steps| == 18
    ensures OutputAt(run, 3, 8) == [ApplyMsg(1, x)] && OutputAt(run, 3, 17) == [ApplyMsg(1, y)]
    ensures run.steps[7] == StepAppendEntries(1) && run.steps[9] == StepAppendEntries(0)
    ensures AcceptedAt(run, 3, 7) && AcceptedAt(run, 3, 9) && SameStream(run, 7, 9) && !NeverShrinks(run, 3)
    ensures |run.states| == 19 && IsLeader(run.states[8], 0, 1) && run.states[8].servers[0].commitIndex == 0
    ensures |run.states[9].servers| == 3 && Committed(run.states[9].servers[0], 1, x)
    ensures IsLeader(run.states[14], 1, 2) && run.states[14].servers[1].logs == []
  {
    hide Apply, Output, Enabled, InRange, OutputAt, Path, IsRun;
    var a, s := Election(Initial(3), 0, 1, 1);
    var b0 := Sends(a[4], 0, 1);
    var b, t := Commit(b0, 0, 1, 1, x);
    var c0 := Delivers(b[4], 0);
    var c, u := Election(c0, 1, 2, 2);
    var d, v := Commit(c[4], 1, 2, 2, y);
    var states, steps := Assemble(a, s, b0, b, t, c0, c, u, d, v);
    PathIsRun(states, steps, 8);
    PathIsRun(states, steps, 17);
    run := Run(states, steps);
    PathIsRun(states, steps, 9);
    Overtakes(run);
  }

  /** The message with the longer log is handled first. */
  lemma Overtakes(run: Run)
    requires IsRun(run, 3) && |run.steps| == 18 && |run.states| == 19
    requires run.steps[7] == StepAppendEntries(1) && run.steps[9] == StepAppendEntries(0)
    requires Carried(run.states[7], 1, 1, 1, 1) && Carried(run.states[9], 0, 1, 1, 0)
    requires Enabled(run.states[7], run.steps[7]) && AcceptedIn(run.states[7], run.steps[7])
    requires Enabled(run.states[9], run.steps[9]) && AcceptedIn(run.states[9], run.steps[9])
    ensures AcceptedAt(run, 3, 7) && AcceptedAt(run, 3, 9) && SameStream(run, 7, 9) && !NeverShrinks(run, 3)
  {
    hide Enabled, IsRun, AcceptedIn;
    assert AcceptedAt(run, 3, 7) && AcceptedAt(run, 3, 9) && SameStream(run, 7, 9);
  }

  lemma Assemble(a: seq<State>, s: seq<Step>, b0: State, b: seq<State>, t: seq<Step>,
                 c0: State, c: seq<State>, u: seq<Step>, d: seq<State>, v: seq<Step>)
    returns (states: seq<State>, steps: seq<Step>)
    requires Path(a, s) && Path(b, t) && Path(c, u) && Path(d, v)
    requires |s| == 4 && |t| == 4 && |u| == 4 && |v| == 4
    requires OneStep(a[4], StepBuild(0, 1), b0) && b0 == b[0]
    requires OneStep(b[4], StepAppendEntries(0), c0) && c0 == c[0] && c[4] == d[0]
    ensures Path(states, steps) && |steps| == 18 && states[0] == a[0]
    ensures steps[7] == t[2] && steps[8] == t[3] && steps[9] == StepAppendEntries(0) && steps[17] == v[3]
    ensures states[7] == b[2] && states[8] == b[3] && states[9] == b[4] && states[14] == c[4] && states[17] == d[3]
  {
    hide Apply, Enabled, InRange, OneStep;
    Extend(a, s, StepBuild(0, 1), b0);
    Join(a + [b0], s + [StepBuild(0, 1)], b, t);
    states, steps := a + [b0] + b[1..], s + [StepBuild(0, 1)] + t;
    Extend(states, steps, StepAppendEntries(0), c0);
    states, steps := states + [c0], steps + [StepAppendEntries(0)];
    Join(states, steps, c, u);
    states, steps := states + c[1..], steps + u;
    Join(states, steps, d, v);
    states, steps := states + d[1..], steps + v;
  }
}
