/** What a server has applied stays in its log, although followers truncate and commit indexes move back. */
module Applied {
  import opened RaftTypes
  import opened RaftServer
  import opened Cluster
  import opened History
  import opened Invariants
  import opened Growth
  import opened Steps
  import opened LogSteps
  import opened Safety
  import opened SafeSteps
  import opened CommitRule
  import opened Runs
  import opened RaftTheorems
  import opened SafetyTheorems

  /** The first a entries of the log belong to something chosen in term t, and if t is the current term
      the server has them from that term's leader. */
  ghost predicate Backs(h: Hist, p: nat, s: Server, a: nat, t: nat, k: nat) {
    && Chosen(h, t, k) && a <= k && t <= s.currentTerm
    && a <= |s.logs| && s.logs[..a] == Piece(h, t, k)[..a]
    && (t == s.currentTerm ==> a <= Ack(h, p, t))
  }

  ghost predicate Knows(h: Hist, p: nat, s: Server, a: nat) {
    a == 0 || exists t: nat, k: nat :: Backs(h, p, s, a, t, k)
  }

  ghost predicate CallBacks(h: Hist, args: AppendArgs, t: nat, k: nat) {
    && Chosen(h, t, k) && args.leaderCommit <= k && t <= args.term
    && args.term in h.reigns && args.leaderCommit <= |h.reigns[args.term].log|
    && h.reigns[args.term].log[..args.leaderCommit] == Piece(h, t, k)[..args.leaderCommit]
  }

  ghost predicate CallKnows(h: Hist, args: AppendArgs) {
    args.leaderCommit == 0 || exists t: nat, k: nat :: CallBacks(h, args, t, k)
  }

  lemma AckGrows(h: Hist, h': Hist, p: nat, v: nat, t: nat)
    requires HistOk(h) && Grows(h, h', p) && t in h.reigns
    ensures Ack(h, v, t) <= Ack(h', v, t)
  {
    AckStays(h, h', p, Ballot(v, t));
    assert SameReign(h.reigns[t], h'.reigns[t]);
  }

  /** A server that keeps the first a entries and does not go back in term still knows them. */
  lemma StillKnows(h: Hist, h': Hist, p: nat, v: nat, s: Server, s': Server, a: nat)
    requires HistOk(h) && Grows(h, h', p) && Knows(h, v, s, a)
    requires s.currentTerm <= s'.currentTerm && s.logs <= s'.logs
    ensures Knows(h', v, s', a)
  {
    hide HistOk, Grows, Everywhere;
    if a > 0 {
      var t: nat, k: nat :| Backs(h, v, s, a, t, k);
      ChosenStays(h, h', p, t, k);
      AckGrows(h, h', p, v, t);
      hide Chosen;
      assert s'.logs[..a] == s.logs[..a];
      assert Backs(h', v, s', a, t, k);
    }
  }

  lemma CallStillKnows(h: Hist, h': Hist, p: nat, args: AppendArgs)
    requires HistOk(h) && Grows(h, h', p) && CallKnows(h, args)
    ensures CallKnows(h', args)
  {
    hide HistOk, Chosen, TermsGrow, VotesGrow, AcksGrow;
    if args.leaderCommit > 0 {
      var t: nat, k: nat :| CallBacks(h, args, t, k);
      ChosenStays(h, h', p, t, k);
      assert SameReign(h.reigns[args.term], h'.reigns[args.term]);
      assert CallBacks(h', args, t, k);
    }
  }

  /** The log that an accepted message installs, from term t' and of length reach. */
  lemma InstalledKnows(h: Hist, p: nat, s: Server, s': Server, a: nat, t': nat, reach: nat)
    requires HistOk(h) && SafeReigns(h) && t' in h.reigns && h.reigns[t'].leader != p
    requires |h.reigns[t'].start| <= reach <= |h.reigns[t'].log| && s'.logs == h.reigns[t'].log[..reach]
    requires s'.currentTerm == t' >= s.currentTerm && Knows(h, p, s, a)
    requires Get(h.acked, Ballot(p, t')) <= reach
    ensures Knows(h, p, s', a)
  {
    hide VoteOk, RanOk, AckedOk, LogOk;
    if a > 0 {
      var t: nat, k: nat :| Backs(h, p, s, a, t, k);
      assert ReignOk(h, t');
      ChosenIsHeld(h, t, k);
      if t < t' {
        assert Piece(h, t, k) <= h.reigns[t'].start;
      }
      hide HistOk, SafeReigns, Chosen;
      assert Backs(h, p, s', a, t, k);
    }
  }

  /** The commit index that an accepted message brings. */
  lemma DeliveredKnows(h: Hist, p: nat, s': Server, args: AppendArgs)
    requires CallKnows(h, args) && args.term in h.reigns
    requires args.leaderCommit <= args.Reach() <= |h.reigns[args.term].log|
    requires s'.logs == h.reigns[args.term].log[..args.Reach()]
    requires s'.currentTerm == args.term && args.Reach() <= Ack(h, p, args.term)
    ensures Knows(h, p, s', args.leaderCommit)
  {
    if args.leaderCommit > 0 {
      var t: nat, k: nat :| CallBacks(h, args, t, k);
      hide Chosen;
      assert Backs(h, p, s', args.leaderCommit, t, k);
    }
  }

  lemma LeaderKnows(h: Hist, p: nat, s: Server, k: nat)
    requires s.currentTerm in h.reigns && h.reigns[s.currentTerm].leader == p && s.logs == h.reigns[s.currentTerm].log
    requires Chosen(h, s.currentTerm, k)
    ensures Knows(h, p, s, k)
  {
    assert Backs(h, p, s, k, s.currentTerm, k);
  }

  lemma BuiltKnows(h: Hist, p: nat, s: Server, a: nat, args: AppendArgs)
    requires Knows(h, p, s, a) && args.leaderCommit <= a && args.term == s.currentTerm
    requires s.currentTerm in h.reigns && s.logs == h.reigns[s.currentTerm].log
    ensures CallKnows(h, args)
  {
    if args.leaderCommit > 0 {
      var t: nat, k: nat :| Backs(h, p, s, a, t, k);
      hide Chosen;
      assert s.logs[..a][..args.leaderCommit] == s.logs[..args.leaderCommit];
      assert CallBacks(h, args, t, k);
    }
  }

  // ---- runs ----

  /** The highest commit index that p has had so far. */
  ghost function High(run: Run, n: nat, p: nat, i: nat): nat
    requires IsRun(run, n) && i < |run.states| && p < n
  {
    SameSize(run, n, i);
    var ci := run.states[i].servers[p].commitIndex;
    if i == 0 then ci else Max(High(run, n, p, i - 1), ci)
  }

  ghost predicate AllKnow(run: Run, n: nat, i: nat)
    requires IsRun(run, n) && i < |run.states|
  {
    && (forall p | 0 <= p < n ::
          && p < |run.states[i].servers|
          && Knows(HistAt(run, n, i), p, run.states[i].servers[p], High(run, n, p, i)))
    && (forall id :: 0 <= id < |run.states[i].appends| ==> CallKnows(HistAt(run, n, i), run.states[i].appends[id].args))
  }

  /** A server knows what it knew before the step, and everything up to its new commit index. */
  lemma ActorKnows(c: State, h: Hist, step: Step, a: nat)
    requires SafeInv(c, h) && Enabled(c, step) && NoLoss(c, h, step) && InRange(c, step)
    requires Keeps(c, h, step) && SafeKeeps(c, h, step)
    requires
      var s := c.servers[Actor(c, step)];
      Knows(h, Actor(c, step), s, a) && s.commitIndex <= a
    requires forall id :: 0 <= id < |c.appends| ==> CallKnows(h, c.appends[id].args)
    ensures
      var s' := After(c, step);
      && Knows(Record(c, h, step), Actor(c, step), s', a)
      && (s'.commitIndex > a ==> Knows(Record(c, h, step), Actor(c, step), s', s'.commitIndex))
  {
    hide HistOk, LogOk, SafeReigns, SafeVotes, CommittedOk, KeepsHeld, VotesOk, Growing, Knows, CallKnows, Grows;
    if AcceptedIn(c, step) {
      AcceptorKnows(c, h, step.id, a);
    } else {
      OtherActorKnows(c, h, step, a);
    }
  }

  lemma AcceptorKnows(c: State, h: Hist, id: nat, a: nat)
    requires SafeInv(c, h) && Enabled(c, StepAppendEntries(id)) && NoLoss(c, h, StepAppendEntries(id))
    requires Keeps(c, h, StepAppendEntries(id)) && SafeKeeps(c, h, StepAppendEntries(id))
    requires AcceptedIn(c, StepAppendEntries(id)) && Knows(h, c.appends[id].dst, c.servers[c.appends[id].dst], a)
    requires CallKnows(h, c.appends[id].args)
    ensures
      var h', p, s' := Record(c, h, StepAppendEntries(id)), c.appends[id].dst, After(c, StepAppendEntries(id));
      Knows(h', p, s', a) && Knows(h', p, s', s'.commitIndex)
  {
    hide VotesOk, Growing, SafeVotes, CommittedOk, ReignOk, VoteOk, RanOk, AckedOk;
    hide VotedForOk, CandidateOk, DiskOk, KeepsHeld;
    var step, call := StepAppendEntries(id), c.appends[id];
    var h', p, s, s' := Record(c, h, step), call.dst, c.servers[call.dst], After(c, step);
    assert ServerOk(h, p, s) && AppendCallOk(h, call);
    AcceptCopies(h, p, s, call.src, call.args);
    assert HistOk(h') && SafeReigns(h') && HistOk(h) && Grows(h, h', p);
    hide HistOk, SafeReigns, Grows, Inv, SafeInv, Knows, CallKnows;
    StillKnows(h, h', p, p, s, s, a);
    CallStillKnows(h, h', p, call.args);
    InstalledKnows(h', p, s, s', a, call.args.term, call.args.Reach());
    DeliveredKnows(h', p, s', call.args);
  }

  /** Only an accepted message makes a server give up part of its log. */
  lemma LogKept(c: State, step: Step)
    requires Enabled(c, step) && InRange(c, step) && !AcceptedIn(c, step) && Actor(c, step) < |c.servers|
    requires DiskOk(c.servers[Actor(c, step)])
    ensures c.servers[Actor(c, step)].logs <= After(c, step).logs
    ensures c.servers[Actor(c, step)].currentTerm <= After(c, step).currentTerm
  {
  }

  lemma OnlyRepliesCommit(c: State, step: Step)
    requires Enabled(c, step) && InRange(c, step) && !AcceptedIn(c, step) && Actor(c, step) < |c.servers|
    requires After(c, step).commitIndex > c.servers[Actor(c, step)].commitIndex
    ensures step.StepAppendReply?
  {
  }

  lemma OtherActorKnows(c: State, h: Hist, step: Step, a: nat)
    requires SafeInv(c, h) && Enabled(c, step) && InRange(c, step) && !AcceptedIn(c, step)
    requires Keeps(c, h, step)
    requires
      var s := c.servers[Actor(c, step)];
      Knows(h, Actor(c, step), s, a) && s.commitIndex <= a
    ensures
      var s' := After(c, step);
      && Knows(Record(c, h, step), Actor(c, step), s', a)
      && (s'.commitIndex > a ==> Knows(Record(c, h, step), Actor(c, step), s', s'.commitIndex))
  {
    hide HistOk, Grows, LogOk, VotesOk, AppendsOk, Growing, SafeHist, SafeServers;
    hide SafeCalls, Knows, Record, After, AcceptedIn;
    var h', p, s, s' := Record(c, h, step), Actor(c, step), c.servers[Actor(c, step)], After(c, step);
    assert ServerOk(h, p, s);
    LogKept(c, step);
    StillKnows(h, h', p, p, s, s', a);
    if s'.commitIndex > a {
      OnlyRepliesCommit(c, step);
      CommitterKnows(c, h, step.id);
    }
  }

  lemma CommitterKnows(c: State, h: Hist, id: nat)
    requires Inv(c, h) && Enabled(c, StepAppendReply(id)) && InRange(c, StepAppendReply(id))
    requires Keeps(c, h, StepAppendReply(id))
    requires After(c, StepAppendReply(id)).commitIndex > c.servers[c.appends[id].src].commitIndex
    ensures
      var step := StepAppendReply(id);
      Knows(Record(c, h, step), c.appends[id].src, After(c, step), After(c, step).commitIndex)
  {
    hide LogOk, VotesOk, AppendsOk, Growing, HistOk, Knows, Grows, Chosen;
    var step := StepAppendReply(id);
    var h', call, p := Record(c, h, step), c.appends[id], c.appends[id].src;
    var s, s' := c.servers[p], After(c, step);
    assert ServerOk(h', p, Apply(c, step).servers[p]);
    hide Record, Inv;
    var s2 := Matched(s, call.dst, call.args, call.status.reply);
    CommitScanMeets(s2, p, s2.commitIndex, s2.commitIndex);
    CommitChoses(h', p, s', s'.commitIndex);
    LeaderKnows(h', p, s', s'.commitIndex);
  }

  lemma HighAtLeast(run: Run, n: nat, p: nat, i: nat)
    requires IsRun(run, n) && i < |run.states| && p < n
    ensures p < |run.states[i].servers| && run.states[i].servers[p].commitIndex <= High(run, n, p, i)
  {
    SameSize(run, n, i);
  }

  lemma {:induction false} HighGrows(run: Run, n: nat, p: nat, i: nat, j: nat)
    requires IsRun(run, n) && i <= j < |run.states| && p < n
    ensures High(run, n, p, i) <= High(run, n, p, j)
    decreases j - i
  {
    if i < j {
      HighGrows(run, n, p, i, j - 1);
    }
  }

  lemma ServerKnowsNext(run: Run, n: nat, i: nat, p: nat)
    requires IsRun(run, n) && NeverShrinks(run, n) && i < |run.steps| && AllKnow(run, n, i) && p < n
    ensures p < |run.states[i + 1].servers|
    ensures Knows(HistAt(run, n, i + 1), p, run.states[i + 1].servers[p], High(run, n, p, i + 1))
  {
    hide HistAt, Inv, SafeInv, NeverShrinks, NoLoss, Grows, Record, Knows, CallKnows, After, HistOk;
    SameSize(run, n, i);
    SameSize(run, n, i + 1);
    SafeAt(run, n, i);
    NoLossAt(run, n, i);
    var c, h, step := run.states[i], HistAt(run, n, i), run.steps[i];
    StepSafe(c, h, step);
    StepAt(run, n, i);
    HighAtLeast(run, n, p, i);
    var a := High(run, n, p, i);
    if Actor(c, step) == p {
      ActorKnows(c, h, step, a);
    } else {
      OthersKnow(c, h, HistAt(run, n, i + 1), Actor(c, step), p, a);
    }
  }

  lemma OthersKnow(c: State, h: Hist, h': Hist, actor: nat, p: nat, a: nat)
    requires Inv(c, h) && Grows(h, h', actor) && p < |c.servers| && Knows(h, p, c.servers[p], a)
    ensures Knows(h', p, c.servers[p], a)
  {
    hide Knows, Grows;
    StillKnows(h, h', actor, p, c.servers[p], c.servers[p], a);
  }

  lemma CallKnowsNext(run: Run, n: nat, i: nat, id: nat)
    requires IsRun(run, n) && NeverShrinks(run, n) && i < |run.steps| && AllKnow(run, n, i)
    requires id < |run.states[i + 1].appends|
    ensures CallKnows(HistAt(run, n, i + 1), run.states[i + 1].appends[id].args)
  {
    hide HistAt, Record, Grows, HistOk, Knows, CallKnows, NeverShrinks, VotesOk, AppendsOk, Growing, BuildArgs;
    var c, h, h', step := run.states[i], HistAt(run, n, i), HistAt(run, n, i + 1), run.steps[i];
    StepAt(run, n, i);
    SameSize(run, n, i);
    if id < |c.appends| {
      MessageFixed(run, n, i, i + 1, id);
      assert HistOk(h) by { assert Inv(c, h); }
      CallStillKnows(h, h', Actor(c, step), c.appends[id].args);
    } else {
      var p := step.p;
      assert ServerOk(h, p, c.servers[p]);
      BuildCommit(c.servers[p], p, step.peer);
      HighAtLeast(run, n, p, i);
      BuiltKnows(h, p, c.servers[p], High(run, n, p, i), BuildArgs(c.servers[p], p, step.peer));
      assert HistOk(h) by { assert Inv(c, h); }
      CallStillKnows(h, h', p, BuildArgs(c.servers[p], p, step.peer));
    }
  }

  lemma BuildCommit(s: Server, me: nat, peer: nat)
    requires BuildInRange(s, peer)
    ensures BuildArgs(s, me, peer).leaderCommit == s.commitIndex && BuildArgs(s, me, peer).term == s.currentTerm
  {
  }

  lemma {:induction false} KnowsAt(run: Run, n: nat, i: nat)
    requires IsRun(run, n) && NeverShrinks(run, n) && i < |run.states|
    ensures AllKnow(run, n, i)
  {
    hide HistAt, NeverShrinks, Knows, CallKnows, High, Inv;
    if i == 0 {
      NothingKnown(run, n);
    } else {
      KnowsAt(run, n, i - 1);
      SameSize(run, n, i);
      forall p | 0 <= p < n
        ensures p < |run.states[i].servers| && Knows(HistAt(run, n, i), p, run.states[i].servers[p], High(run, n, p, i))
      {
        ServerKnowsNext(run, n, i - 1, p);
      }
      forall id | 0 <= id < |run.states[i].appends|
        ensures CallKnows(HistAt(run, n, i), run.states[i].appends[id].args)
      {
        CallKnowsNext(run, n, i - 1, id);
      }
    }
  }

  lemma NothingKnown(run: Run, n: nat)
    requires IsRun(run, n)
    ensures AllKnow(run, n, 0)
  {
  }

  lemma OutputBelowCommit(run: Run, n: nat, i: nat, x: ApplyMsg)
    requires IsRun(run, n) && i < |run.steps| && x in OutputAt(run, n, i)
    ensures ActorAt(run, n, i) < |run.states[i + 1].servers|
    ensures 1 <= x.index <= run.states[i + 1].servers[ActorAt(run, n, i)].commitIndex
  {
    hide HistAt, Record, Grows, HistOk, ServersOk, VotesOk, AppendsOk, Growing, After, Output, VotesAfter, AppendsAfter;
    StepAt(run, n, i);
    OutputConsecutive(run.states[i], HistAt(run, n, i), run.steps[i]);
  }

  /** Whatever a server has ever applied, before or after crashes, stays: up to there its log is the
      committed log. */
  lemma AppliedPrefixStays(run: Run, n: nat, i: nat, j: nat, x: ApplyMsg)
    requires IsRun(run, n) && NeverShrinks(run, n) && i < |run.steps| && i < j < |run.states|
    requires x in OutputAt(run, n, i)
    ensures ActorAt(run, n, i) < |run.states[j].servers|
    ensures
      var log := run.states[j].servers[ActorAt(run, n, i)].logs;
      && 1 <= x.index <= |log| && x.index <= |CommittedAt(run, n, j)|
      && log[..x.index] == CommittedAt(run, n, j)[..x.index]
      && log[x.index - 1].command == x.command
  {
    hide HistAt, Inv, NeverShrinks, Knows, OutputAt, SafeInv, ActorAt;
    var p := ActorAt(run, n, i);
    SameSize(run, n, i + 1);
    SameSize(run, n, j);
    OutputBelowCommit(run, n, i, x);
    HighAtLeast(run, n, p, i + 1);
    HighGrows(run, n, p, i + 1, j);
    KnowsAt(run, n, j);
    OutputCommitted(run, n, i);
    CommittedGrows(run, n, i + 1, j);
    SafeAt(run, n, j);
    KnownIsCommitted(run.states[j], HistAt(run, n, j), p, High(run, n, p, j), x.index);
    var log, committed := run.states[j].servers[p].logs, CommittedAt(run, n, j);
    assert log[..x.index][x.index - 1] == committed[..x.index][x.index - 1];
  }

  lemma KnownIsCommitted(c: State, h: Hist, p: nat, a: nat, b: nat)
    requires SafeInv(c, h) && p < |c.servers| && Knows(h, p, c.servers[p], a) && 1 <= b <= a && b <= |h.committed|
    ensures b <= |c.servers[p].logs| && c.servers[p].logs[..b] == h.committed[..b]
  {
    hide HistOk, LogOk, SafeReigns, SafeVotes, Everywhere, ServersOk, SafeServers, SafeCalls;
    var s := c.servers[p];
    var t: nat, k: nat :| Backs(h, p, s, a, t, k);
    if k <= |h.committed| {
      ChosenCompare(h, t, k, h.commitTerm, |h.committed|);
    } else {
      ChosenCompare(h, h.commitTerm, |h.committed|, t, k);
    }
    var piece := Piece(h, t, k);
    assert s.logs[..b] == s.logs[..a][..b] == piece[..a][..b] == piece[..b];
    assert piece[..b] == h.committed[..b];
  }
}
