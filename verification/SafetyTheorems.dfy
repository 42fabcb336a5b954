/**
 State machine safety and leader completeness, for the runs in which no follower handles a message
 after a later one of the same leader and term has made its log longer.
 */
module SafetyTheorems {
  import opened RaftTypes
  import opened RaftServer
  import opened Cluster
  import opened History
  import opened Invariants
  import opened Growth
  import opened LogSteps
  import opened Safety
  import opened SafeSteps
  import opened CommitRule
  import opened Runs
  import opened RaftTheorems

  /** Each follower handles the messages of one leader and term in the order in which they were built. */
  ghost predicate InOrder(run: Run, n: nat)
    requires IsRun(run, n)
  {
    forall i, j | 0 <= i < j < |run.steps| && AcceptedAt(run, n, i) && AcceptedAt(run, n, j) && SameStream(run, i, j) ::
      run.steps[i].id < run.steps[j].id
  }

  /** Steps i and j hand messages of the same term to the same follower. */
  ghost predicate SameStream(run: Run, i: nat, j: nat)
    requires i < j < |run.steps| < |run.states|
  {
    && run.steps[i].StepAppendEntries? && run.steps[j].StepAppendEntries?
    && run.steps[i].id < |run.states[i].appends| && run.steps[j].id < |run.states[j].appends|
    && var a, b := run.states[i].appends[run.steps[i].id], run.states[j].appends[run.steps[j].id];
       a.dst == b.dst && a.args.term == b.args.term
  }

  /** Enough for safety: an accepted message never carries a shorter log than one that the follower has
      already accepted in the same term. */
  ghost predicate NeverShrinks(run: Run, n: nat)
    requires IsRun(run, n)
  {
    forall i, j | 0 <= i < j < |run.steps| && AcceptedAt(run, n, i) && AcceptedAt(run, n, j) && SameStream(run, i, j) ::
      run.states[i].appends[run.steps[i].id].args.Reach() <= run.states[j].appends[run.steps[j].id].args.Reach()
  }

  /** Handling messages in order is enough for that, because a leader's log only grows. */
  lemma InOrderNeverShrinks(run: Run, n: nat)
    requires IsRun(run, n) && InOrder(run, n)
    ensures NeverShrinks(run, n)
  {
    hide HistAt;
    forall i, j | 0 <= i < j < |run.steps| && AcceptedAt(run, n, i) && AcceptedAt(run, n, j) && SameStream(run, i, j)
      ensures run.states[i].appends[run.steps[i].id].args.Reach() <= run.states[j].appends[run.steps[j].id].args.Reach()
    {
      assert run.steps[i].id < run.steps[j].id;
      MessageFixed(run, n, i, j, run.steps[i].id);
      assert Inv(run.states[j], HistAt(run, n, j));
    }
  }

  lemma NewAck(c: State, h: Hist, step: Step, b: Ballot)
    requires Enabled(c, step) && b in AckedAfter(c, h, step)
    ensures
      || (b in h.acked && AckedAfter(c, h, step)[b] == h.acked[b])
      || (&& AcceptedIn(c, step)
          && var call := c.appends[step.id];
             && b == Ballot(call.dst, call.args.term) && AckedAfter(c, h, step)[b] == call.args.Reach())
  {
  }

  lemma RunStart(run: Run, n: nat)
    requires IsRun(run, n)
    ensures HistAt(run, n, 0) == NoHistory(n) && SafeInv(run.states[0], HistAt(run, n, 0))
  {
    InitialInv(n);
  }

  /** Every acknowledgement in the history was earned by a message accepted earlier in the run. */
  lemma {:induction false} AckWitness(run: Run, n: nat, i: nat, b: Ballot) returns (j: nat)
    requires IsRun(run, n) && i < |run.states| && b in HistAt(run, n, i).acked
    ensures j < i && AcceptedAt(run, n, j) && run.steps[j].id < |run.states[j].appends|
    ensures
      var call := run.states[j].appends[run.steps[j].id];
      call.dst == b.server && call.args.term == b.term && call.args.Reach() == HistAt(run, n, i).acked[b]
  {
    hide HistAt, Inv, SafeInv, Grows, Apply, AckedAfter;
    RunStart(run, n);
    assert i > 0;
    StepAt(run, n, i - 1);
    NewAck(run.states[i - 1], HistAt(run, n, i - 1), run.steps[i - 1], b);
    if AcceptedAt(run, n, i - 1) && var call := run.states[i - 1].appends[run.steps[i - 1].id];
       b == Ballot(call.dst, call.args.term) && call.args.Reach() == HistAt(run, n, i).acked[b] {
      j := i - 1;
    } else {
      j := AckWitness(run, n, i - 1, b);
    }
  }

  lemma NoLossAt(run: Run, n: nat, i: nat)
    requires IsRun(run, n) && NeverShrinks(run, n) && i < |run.steps|
    ensures Enabled(run.states[i], run.steps[i])
    ensures NoLoss(run.states[i], HistAt(run, n, i), run.steps[i])
  {
    hide HistAt, Inv;
    assert Next(run.states[i], run.steps[i], run.states[i + 1]);
    if AcceptedAt(run, n, i) {
      var call := run.states[i].appends[run.steps[i].id];
      var b := Ballot(call.dst, call.args.term);
      if b in HistAt(run, n, i).acked {
        var j := AckWitness(run, n, i, b);
        assert SameStream(run, j, i);
      }
    }
  }

  lemma {:induction false} SafeAt(run: Run, n: nat, i: nat)
    requires IsRun(run, n) && NeverShrinks(run, n) && i < |run.states|
    ensures SafeInv(run.states[i], HistAt(run, n, i))
  {
    hide HistAt, Inv, SafeInv, NeverShrinks, Apply, Record, NoLoss, Grows, Enabled;
    if i == 0 {
      RunStart(run, n);
    } else {
      SafeAt(run, n, i - 1);
      NoLossAt(run, n, i - 1);
      StepSafe(run.states[i - 1], HistAt(run, n, i - 1), run.steps[i - 1]);
      StepAt(run, n, i - 1);
    }
  }

  // ---- the committed log ----

  /** The longest log that any leader has committed before state i. */
  ghost function CommittedAt(run: Run, n: nat, i: nat): Log
    requires IsRun(run, n) && i < |run.states|
  {
    HistAt(run, n, i).committed
  }

  /** The committed log is append-only. */
  lemma {:induction false} CommittedGrows(run: Run, n: nat, i: nat, j: nat)
    requires IsRun(run, n) && NeverShrinks(run, n) && i <= j < |run.states|
    ensures CommittedAt(run, n, i) <= CommittedAt(run, n, j)
    decreases j - i
  {
    hide HistAt, Inv, SafeInv, NeverShrinks, Apply, Record, NoLoss, Grows, Enabled;
    if i < j {
      CommittedGrows(run, n, i, j - 1);
      SafeAt(run, n, j - 1);
      NoLossAt(run, n, j - 1);
      StepSafe(run.states[j - 1], HistAt(run, n, j - 1), run.steps[j - 1]);
      StepAt(run, n, j - 1);
    }
  }

  /** Every server's committed prefix is a prefix of the one committed log. */
  lemma CommitIndexInCommitted(run: Run, n: nat, i: nat, p: nat)
    requires IsRun(run, n) && NeverShrinks(run, n) && i < |run.states| && p < |run.states[i].servers|
    ensures
      var s := run.states[i].servers[p];
      s.commitIndex <= |s.logs| && s.logs[..s.commitIndex] <= CommittedAt(run, n, i)
  {
    hide HistAt, Inv, NeverShrinks;
    SafeAt(run, n, i);
    assert SafeServer(HistAt(run, n, i), p, run.states[i].servers[p]);
  }

  /** Entry m of the applied stream is entry m of the log. */
  ghost predicate InLog(out: seq<ApplyMsg>, log: Log) {
    forall m :: m in out ==> 1 <= m.index <= |log| && log[m.index - 1].command == m.command
  }

  lemma AppendOutputCommitted(h: Hist, p: nat, s: Server, src: nat, args: AppendArgs)
    requires HistOk(h) && ServerOk(h, p, s) && AppendArgsOk(h, src, args) && SafeCall(h, args)
    requires AppendInRange(s, args)
    ensures InLog(AppendOutput(s, args), h.committed)
  {
    if Accepts(s, args) {
      AcceptCopies(h, p, s, src, args);
    }
  }

  lemma BatchInLog(log: Log, from: nat, to: nat, committed: Log)
    requires to <= |log| && log[..to] <= committed
    ensures InLog(Batch(log, from, to), committed)
  {
    forall m | m in Batch(log, from, to)
      ensures 1 <= m.index <= |committed| && committed[m.index - 1].command == m.command
    {
      assert log[..to][m.index - 1] == committed[m.index - 1];
    }
  }

  lemma ReplyOutputCommitted(s: Server, me: nat, n: nat, peer: nat, args: AppendArgs, reply: AppendReply,
                             committed: Log)
    requires AppendReplyInRange(s, n, peer)
    requires
      var s' := HandleAppendReply(s, me, n, peer, args, reply);
      s'.commitIndex <= |s'.logs| && s'.logs[..s'.commitIndex] <= committed
    ensures InLog(AppendReplyOutput(s, me, n, peer, args, reply), committed)
  {
    if Advances(s, args, reply) {
      var s' := HandleAppendReply(s, me, n, peer, args, reply);
      BatchInLog(s.logs, s.commitIndex, s'.commitIndex, committed);
    }
  }

  /** Whatever any server applies in a step is in the committed log after the step. */
  lemma OutputCommitted(run: Run, n: nat, i: nat)
    requires IsRun(run, n) && NeverShrinks(run, n) && i < |run.steps|
    ensures InLog(OutputAt(run, n, i), CommittedAt(run, n, i + 1))
  {
    var c, c', h, h', step := run.states[i], run.states[i + 1], HistAt(run, n, i), HistAt(run, n, i + 1), run.steps[i];
    hide HistAt, NeverShrinks, Grows, HistOk, InLog, SafeHist;
    StepAt(run, n, i);
    SafeAt(run, n, i);
    SafeAt(run, n, i + 1);
    CommittedGrows(run, n, i, i + 1);
    OutputStep(c, h, c', h', step);
  }

  lemma OutputStep(c: State, h: Hist, c': State, h': Hist, step: Step)
    requires Inv(c, h) && SafeCalls(h, c.appends) && Enabled(c, step) && InRange(c, step)
    requires c' == Apply(c, step) && SafeServers(h', c'.servers) && h.committed <= h'.committed
    ensures InLog(Output(c, step), h'.committed)
  {
    hide HistOk, LogOk, VotesOk, Growing, AppendOutput, AppendReplyOutput;
    match step
    case StepAppendEntries(id) =>
      var call := c.appends[id];
      assert AppendCallOk(h, call) && ServerOk(h, call.dst, c.servers[call.dst]) && SafeCall(h, call.args);
      AppendOutputCommitted(h, call.dst, c.servers[call.dst], call.src, call.args);
      InLogLonger(AppendOutput(c.servers[call.dst], call.args), h.committed, h'.committed);
    case StepAppendReply(id) =>
      var call := c.appends[id];
      assert SafeServer(h', call.src, c'.servers[call.src]);
      var s := c.servers[call.src];
      ReplyOutputCommitted(s, call.src, |c.servers|, call.dst, call.args, call.status.reply, h'.committed);
    case _ =>
  }

  lemma InLogLonger(out: seq<ApplyMsg>, log: Log, longer: Log)
    requires InLog(out, log) && log <= longer
    ensures InLog(out, longer)
  {
  }

  /** No two servers, and no two incarnations of one server, ever apply different commands at an index. */
  lemma StateMachineSafety(run: Run, n: nat, i: nat, j: nat, x: ApplyMsg, y: ApplyMsg)
    requires IsRun(run, n) && NeverShrinks(run, n) && i < |run.steps| && j < |run.steps|
    requires x in OutputAt(run, n, i) && y in OutputAt(run, n, j) && x.index == y.index
    ensures x.command == y.command
  {
    hide HistAt, Inv, NeverShrinks, OutputAt;
    OutputCommitted(run, n, i);
    OutputCommitted(run, n, j);
    if i <= j {
      CommittedGrows(run, n, i + 1, j + 1);
    } else {
      CommittedGrows(run, n, j + 1, i + 1);
    }
  }

  lemma StateMachineSafetyInOrder(run: Run, n: nat, i: nat, j: nat, x: ApplyMsg, y: ApplyMsg)
    requires IsRun(run, n) && InOrder(run, n) && i < |run.steps| && j < |run.steps|
    requires x in OutputAt(run, n, i) && y in OutputAt(run, n, j) && x.index == y.index
    ensures x.command == y.command
  {
    InOrderNeverShrinks(run, n);
    StateMachineSafety(run, n, i, j, x, y);
  }

  // ---- leader completeness ----

  lemma {:induction false} ChosenLater(run: Run, n: nat, i: nat, j: nat, t: nat, k: nat)
    requires IsRun(run, n) && i <= j < |run.states| && Chosen(HistAt(run, n, i), t, k)
    ensures Chosen(HistAt(run, n, j), t, k) && Piece(HistAt(run, n, j), t, k) == Piece(HistAt(run, n, i), t, k)
    decreases j - i
  {
    hide HistAt, HistOk, Chosen, Grows, Record, Apply;
    if i < j {
      ChosenLater(run, n, i, j - 1, t, k);
      StepAt(run, n, j - 1);
      ChosenStays(HistAt(run, n, j - 1), HistAt(run, n, j), Actor(run.states[j - 1], run.steps[j - 1]), t, k);
    }
  }

  /** The commit step of a leader is about an entry of its own term that a majority holds. */
  lemma CommitStepChoses(run: Run, n: nat, i: nat, p: nat, term: nat)
    requires IsRun(run, n) && i < |run.steps| && run.steps[i].StepAppendReply?
    requires IsLeader(run.states[i], p, term) && IsLeader(run.states[i + 1], p, term)
    requires run.states[i + 1].servers[p].commitIndex > run.states[i].servers[p].commitIndex
    ensures
      var k := run.states[i + 1].servers[p].commitIndex;
      && Chosen(HistAt(run, n, i + 1), term, k)
      && k <= |run.states[i + 1].servers[p].logs|
      && Piece(HistAt(run, n, i + 1), term, k) == run.states[i + 1].servers[p].logs[..k]
  {
    hide HistAt, Grows, Record, VotesOk, LogOk, Growing, Chosen, HistOk;
    StepAt(run, n, i);
    var c, c', h', id := run.states[i], run.states[i + 1], HistAt(run, n, i + 1), run.steps[i].id;
    var call, s, s' := c.appends[id], c.servers[p], c'.servers[p];
    assert ServerOk(h', p, s');
    var s2 := Matched(s, call.dst, call.args, call.status.reply);
    CommitScanMeets(s2, p, s2.commitIndex, s2.commitIndex);
    CommitChoses(h', p, s', s'.commitIndex);
  }

  /** Once a leader has committed up to an entry of its own term, the log of every leader of a later
      term starts with all that is committed: at any time, before or after the commit. */
  lemma LeaderCompleteness(run: Run, n: nat, i: nat, p: nat, term: nat, j: nat, q: nat, term': nat)
    requires IsRun(run, n) && NeverShrinks(run, n) && i < |run.steps| && run.steps[i].StepAppendReply?
    requires IsLeader(run.states[i], p, term) && IsLeader(run.states[i + 1], p, term)
    requires run.states[i + 1].servers[p].commitIndex > run.states[i].servers[p].commitIndex
    requires j < |run.states| && IsLeader(run.states[j], q, term') && term < term'
    ensures
      var s := run.states[i + 1].servers[p];
      s.commitIndex <= |s.logs| && s.logs[..s.commitIndex] <= run.states[j].servers[q].logs
  {
    hide HistAt, Inv, NeverShrinks, Chosen, SafeServers, SafeCalls;
    CommitStepChoses(run, n, i, p, term);
    var k, last := run.states[i + 1].servers[p].commitIndex, Max(i + 1, j);
    ChosenLater(run, n, i + 1, last, term, k);
    ChosenIsHeld(HistAt(run, n, last), term, k);
    LeaderReigns(run, n, j, q, term');
    SameReignLater(run, n, j, last, term');
    SafeAt(run, n, last);
    assert Inv(run.states[j], HistAt(run, n, j));
    StartInLog(run.states[j], HistAt(run, n, j), term');
    assert Piece(HistAt(run, n, last), term, k) <= HistAt(run, n, last).reigns[term'].start;
  }

  lemma StartInLog(c: State, h: Hist, t: nat)
    requires Inv(c, h) && t in h.reigns
    ensures h.reigns[t].start <= h.reigns[t].log
  {
    assert ReignOk(h, t);
  }
}
