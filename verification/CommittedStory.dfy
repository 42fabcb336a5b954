/**
 The log of the clerks' stories is the committed log of Raft: as a run goes on, the story goes on with
 landings only, and what the handlers test at a peer is what the story's acknowledgements require.
 */
module CommittedStory {
  import opened RaftTypes
  import opened Cluster
  import opened History
  import opened Invariants
  import opened Growth
  import opened Safety
  import opened Runs
  import opened RaftTheorems
  import opened SafetyTheorems
  import opened KvOnRaft
  import opened KvReplay
  import opened ClerkWorld
  import opened ClerkTheorems

  /** Some Start before state i was given the command. */
  ghost predicate StartedBefore(run: Run, i: nat, command: Command) {
    exists j :: 0 <= j < i <= |run.steps| && run.steps[j].StepStart? && run.steps[j].command == command
  }

  ghost predicate OfReigns(h: Hist, command: Command) {
    exists t: nat, k: nat :: InReign(h, t, k, command)
  }

  ghost predicate InReign(h: Hist, t: nat, k: nat, command: Command) {
    t in h.reigns && k < |h.reigns[t].log| && h.reigns[t].log[k].command == command
  }

  /** A step brings no command into the leaders' logs but the one that it starts. */
  lemma StepBrings(c: State, h: Hist, step: Step, t: nat, k: nat)
    requires Inv(c, h) && Enabled(c, step) && InRange(c, step)
    requires t in Record(c, h, step).reigns && k < |Record(c, h, step).reigns[t].log|
    ensures
      var command := Record(c, h, step).reigns[t].log[k].command;
      OfReigns(h, command) || (step.StepStart? && step.command == command)
  {
    hide HistOk, VotesOk, AppendsOk, Growing, VotedForOk, CandidateOk, LeaderOk, DiskOk;
    var h', p := Record(c, h, step), Actor(c, step);
    var log := h'.reigns[t].log;
    var s := c.servers[p];
    assert ServerOk(h, p, s);
    if t in h.reigns && h.reigns[t].log == log {
      assert InReign(h, t, k, log[k].command);
    } else if k < |s.logs| {
      assert s.logs[k] == log[k];
      assert Sourced(h, s.logs, k);
      var t' := s.logs[k].term;
      assert s.logs[..k + 1][k] == h.reigns[t'].log[..k + 1][k];
      assert InReign(h, t', k, log[k].command);
    }
  }

  lemma {:induction false} ReignsStarted(run: Run, n: nat, i: nat, t: nat, k: nat)
    requires IsRun(run, n) && i < |run.states| && t in HistAt(run, n, i).reigns && k < |HistAt(run, n, i).reigns[t].log|
    ensures StartedBefore(run, i, HistAt(run, n, i).reigns[t].log[k].command)
  {
    hide HistAt, Inv, Record, Grows;
    RunStart(run, n);
    assert i > 0;
    StepAt(run, n, i - 1);
    var h, command := HistAt(run, n, i - 1), HistAt(run, n, i).reigns[t].log[k].command;
    StepBrings(run.states[i - 1], h, run.steps[i - 1], t, k);
    if OfReigns(h, command) {
      var t', k' :| InReign(h, t', k', command);
      ReignsStarted(run, n, i - 1, t', k');
    }
  }

  /** Whatever is committed was started before. */
  lemma CommittedStarted(run: Run, n: nat, i: nat, k: nat)
    requires IsRun(run, n) && NeverShrinks(run, n) && i < |run.states| && k < |CommittedAt(run, n, i)|
    ensures StartedBefore(run, i, CommittedAt(run, n, i)[k].command)
  {
    hide HistAt, Inv, NeverShrinks, SafeServers, SafeCalls, SafeReigns, SafeVotes, StartedBefore;
    SafeAt(run, n, i);
    var h := HistAt(run, n, i);
    assert CommittedOk(h);
    assert Piece(h, h.commitTerm, |h.committed|)[k] == h.reigns[h.commitTerm].log[k];
    ReignsStarted(run, n, i, h.commitTerm, k);
  }

  /** The command is an operation that some clerk has issued. */
  ghost predicate Requested(w: World, op: Op) {
    exists c, k :: Issued(w, c, k) && IssuedOp(w, c, k) == op
  }

  /** Commands reach a peer's Start only from the clerks' requests. */
  ghost predicate OnlyRequests(run: Run, i: nat, w: World) {
    forall op :: StartedBefore(run, i, op) ==> Requested(w, op)
  }

  ghost function Now(s: Story): World
    requires s.worlds != []
  {
    s.worlds[|s.worlds| - 1]
  }

  /** s' goes on from s with landings only. */
  ghost predicate OnlyLands(s: Story, s': Story) {
    && s.worlds <= s'.worlds && s.events <= s'.events
    && forall j :: |s.events| <= j < |s'.events| ==> s'.events[j].Land?
  }

  lemma {:induction false} LandAll(s: Story, n: nat, ops: seq<Op>) returns (s': Story)
    requires IsStory(s, n) && s.worlds != [] && forall op :: op in ops ==> Requested(Now(s), op)
    ensures IsStory(s', n) && s'.worlds != [] && OnlyLands(s, s')
    ensures Now(s').clerks == Now(s).clerks && Ops(Now(s').log) == Ops(Now(s).log) + ops
  {
    if ops == [] {
      s' := s;
    } else {
      var rest, op := ops[..|ops| - 1], ops[|ops| - 1];
      s' := LandAll(s, n, rest);
      RequestedStill(Now(s), Now(s'), op);
      s' := LandOne(s', n, op);
    }
  }

  lemma RequestedStill(w: World, w': World, op: Op)
    requires Requested(w, op) && w'.clerks == w.clerks
    ensures Requested(w', op)
  {
    var c: nat, k: nat :| Issued(w, c, k) && IssuedOp(w, c, k) == op;
    assert Issued(w', c, k) && IssuedOp(w', c, k) == op;
  }

  lemma LandOne(s: Story, n: nat, op: Op) returns (s': Story)
    requires IsStory(s, n) && Requested(Now(s), op)
    ensures IsStory(s', n) && OnlyLands(s, s') && |s'.events| == |s.events| + 1
    ensures Now(s').clerks == Now(s).clerks && Ops(Now(s').log) == Ops(Now(s).log) + [op]
  {
    var w := Now(s);
    var c: nat, k: nat :| Issued(w, c, k) && IssuedOp(w, c, k) == op;
    var w' := Happen(w, Land(c, k));
    hide Happen, Possible;
    assert Possible(w, Land(c, k));
    s' := Story(s.worlds + [w'], s.events + [Land(c, k)]);
  }

  /** A story whose log is the committed log of a run before a step can go on, with zero or more landings and
      nothing else, until its log is the committed log after the step. */
  lemma CommitsLand(run: Run, n: nat, i: nat, s: Story, m: nat) returns (s': Story)
    requires IsRun(run, n) && NeverShrinks(run, n) && i < |run.steps|
    requires IsStory(s, m) && s.worlds != [] && Ops(Now(s).log) == Commands(CommittedAt(run, n, i))
    requires OnlyRequests(run, i + 1, Now(s))
    ensures IsStory(s', m) && s'.worlds != [] && OnlyLands(s, s') && Now(s').clerks == Now(s).clerks
    ensures Ops(Now(s').log) == Commands(CommittedAt(run, n, i + 1))
  {
    hide HistAt, Inv, NeverShrinks, IsStory, OnlyRequests, CommittedAt, Requested;
    var before, after := CommittedAt(run, n, i), CommittedAt(run, n, i + 1);
    CommittedGrows(run, n, i, i + 1);
    CommandsOfPrefix(before, after);
    var ops := Commands(after)[|before|..];
    forall op | op in ops ensures Requested(Now(s), op) {
      var k :| 0 <= k < |ops| && ops[k] == op;
      NewlyCommitted(run, n, i + 1, |before| + k, Now(s));
    }
    s' := LandAll(s, m, ops);
  }

  lemma CommandsOfPrefix(a: Log, b: Log)
    requires a <= b
    ensures Commands(b) == Commands(a) + Commands(b)[|a|..]
  {
  }

  lemma NewlyCommitted(run: Run, n: nat, i: nat, k: nat, w: World)
    requires IsRun(run, n) && NeverShrinks(run, n) && i < |run.states| && k < |CommittedAt(run, n, i)|
    requires OnlyRequests(run, i, w)
    ensures Requested(w, CommittedAt(run, n, i)[k].command)
  {
    hide HistAt, Inv, NeverShrinks, StartedBefore, CommittedAt, Requested;
    CommittedStarted(run, n, i, k);
  }

  /** When a peer that has applied an index finds the three fields of a clerk's pending write there, the story
      allows the acknowledgement. */
  lemma AcknowledgementIsPossible(run: Run, n: nat, i: nat, j: nat, x: ApplyMsg, index: nat, w: World, c: nat)
    requires IsRun(run, n) && NeverShrinks(run, n) && i < |run.steps| && i < j < |run.states|
    requires x in OutputAt(run, n, i) && 1 <= index <= x.index
    requires Ops(w.log) == Commands(CommittedAt(run, n, j))
    requires c < |w.clerks| && w.clerks[c].busy && w.clerks[c].issued != [] && Mutation(Pending(w.clerks[c]))
    ensures ActorAt(run, n, i) < |run.states[j].servers| && index <= |run.states[j].servers[ActorAt(run, n, i)].logs|
    ensures
      var tmp := run.states[j].servers[ActorAt(run, n, i)].logs[index - 1].command;
      SameTriple(tmp, Pending(w.clerks[c])) <==> Possible(w, EndPutAppend(c, index))
  {
    hide HistAt, Inv, NeverShrinks, OutputAt, ActorAt, CommittedAt;
    AcknowledgementReadsCommitted(run, n, i, j, x, index);
    assert Ops(w.log)[index - 1] == w.log[index - 1].op;
  }

  /** Two histories that agree up to an entry of the write let it take effect alike. */
  lemma SameEffect(a: seq<Op>, b: seq<Op>, index: nat, x: Op)
    requires 1 <= index <= |a| && index <= |b| && a[..index] == b[..index] && a[index - 1] == x && Mutation(x)
    ensures multiset(Firsts(a))[x] == multiset(Firsts(b))[x]
  {
    hide KindOf, Firsts, FirstWith;
    assert a[..index][index - 1].uuid == x.uuid;
    FirstWithPrefix(a[..index], a, x.uuid);
    FirstWithPrefix(b[..index], b, x.uuid);
    EffectCount(a, x);
    EffectCount(b, x);
  }

  /** What a Get replays agrees with the committed log of any other moment as far as both go. */
  lemma ReplayedAgrees(run: Run, n: nat, j: nat, l: nat, q: nat, index: nat)
    requires IsRun(run, n) && NeverShrinks(run, n) && j < |run.states| && l < |run.states|
    requires q < |run.states[l].servers| && index <= run.states[l].servers[q].commitIndex
    requires index <= |CommittedAt(run, n, j)|
    ensures run.states[l].servers[q].commitIndex <= |run.states[l].servers[q].logs|
    ensures
      var replayed := ReplayedAt(run, n, l, q);
      index <= |replayed| && replayed[..index] == Commands(CommittedAt(run, n, j))[..index]
  {
    hide HistAt, Inv, NeverShrinks, CommittedAt;
    CommitIndexInCommitted(run, n, l, q);
    if j <= l {
      CommittedGrows(run, n, j, l);
    } else {
      CommittedGrows(run, n, l, j);
    }
    var s := run.states[l].servers[q];
    var own, here, there := s.logs[..s.commitIndex], CommittedAt(run, n, l), CommittedAt(run, n, j);
    assert own[..index] == here[..index] == there[..index];
    CommandsTake(own, index);
    CommandsTake(there, index);
  }

  lemma CommandsTake(log: Log, index: nat)
    requires index <= |log|
    ensures Commands(log)[..index] == Commands(log[..index])
  {
  }

  /** From the acknowledgement to the answer. A peer that has applied an index passes PutAppend's test for the
      pending write of a clerk, which no other operation looks like. Then in what every Get replays, at any
      server and any time, once its commit index has reached that entry, the write counts exactly once, unless a
      clerk of the same id had overtaken it; in that case it does not count at all. */
  lemma AcknowledgedIsReplayed(run: Run, n: nat, i: nat, j: nat, x: ApplyMsg, index: nat,
                               s: Story, m: nat, t: nat, c: nat, l: nat, q: nat)
    requires IsRun(run, n) && NeverShrinks(run, n) && i < |run.steps| && i < j < |run.states|
    requires x in OutputAt(run, n, i) && 1 <= index <= x.index
    requires IsStory(s, m) && t < |s.worlds| && Ops(s.worlds[t].log) == Commands(CommittedAt(run, n, j))
    requires
      var w := s.worlds[t];
      && c < |w.clerks| && w.clerks[c].busy && w.clerks[c].issued != [] && Mutation(Pending(w.clerks[c]))
      && NoTwin(w, c, |w.clerks[c].issued| - 1)
    requires ActorAt(run, n, i) < |run.states[j].servers| && index <= |run.states[j].servers[ActorAt(run, n, i)].logs|
    requires
      var tmp := run.states[j].servers[ActorAt(run, n, i)].logs[index - 1].command;
      SameTriple(tmp, Pending(s.worlds[t].clerks[c]))
    requires l < |run.states| && q < |run.states[l].servers| && index <= run.states[l].servers[q].commitIndex
    ensures run.states[l].servers[q].commitIndex <= |run.states[l].servers[q].logs|
    ensures
      var w := s.worlds[t];
      multiset(Firsts(ReplayedAt(run, n, l, q)))[Pending(w.clerks[c])]
      == if Overtaken(w, c, |w.clerks[c].issued| - 1) then 0 else 1
  {
    hide HistAt, Inv, NeverShrinks, OutputAt, ActorAt, CommittedAt, IsStory, ReplayedAt, KindOf, Firsts, WorldOk;
    var w := s.worlds[t];
    var k, op := |w.clerks[c].issued| - 1, Pending(w.clerks[c]);
    assert Issued(w, c, k) && IssuedOp(w, c, k) == op;
    AcknowledgementIsPossible(run, n, i, j, x, index, w, c);
    OwnEntryCounts(s, m, t, c, index);
    assert Ops(w.log)[index - 1] == op;
    ReplayedAgrees(run, n, j, l, q, index);
    SameEffect(Ops(w.log), ReplayedAt(run, n, l, q), index, op);
  }

  lemma OwnEntryCounts(s: Story, m: nat, t: nat, c: nat, index: nat)
    requires IsStory(s, m) && t < |s.worlds| && Possible(s.worlds[t], EndPutAppend(c, index))
    requires NoTwin(s.worlds[t], c, |s.worlds[t].clerks[c].issued| - 1)
    ensures
      var w := s.worlds[t];
      var k, op := |w.clerks[c].issued| - 1, Pending(w.clerks[c]);
      && index <= |w.log| && Ops(w.log)[index - 1] == op
      && multiset(Firsts(Ops(w.log)))[op] == if Overtaken(w, c, k) then 0 else 1
  {
    hide IsStory, KindOf, Firsts, Overtaken;
    var w := s.worlds[t];
    StoryOk(s, m, t);
    AckFindsOwn(w, c, index);
    var k := |w.clerks[c].issued| - 1;
    assert Issued(w, c, k) && IssuedOp(w, c, k) == Pending(w.clerks[c]);
    assert NoDouble(w, c, k);
    LandedExactly(s, m, t, c, k);
  }
}
