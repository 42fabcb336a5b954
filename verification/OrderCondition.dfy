/**
 The hypothesis that safety makes about the order of messages, in terms of what happens to logs: it holds
 of a run exactly when no follower ever loses an entry that the leader of the same term had given it.
 */
module OrderCondition {
  import opened RaftTypes
  import opened Cluster
  import opened History
  import opened Invariants
  import opened Growth
  import opened LogSteps
  import opened Safety
  import opened Runs
  import opened RaftTheorems
  import opened SafetyTheorems

  /** A message never removes entries from a log that an earlier message of the same term has installed. */
  ghost predicate NeverTakesBack(run: Run, n: nat)
    requires IsRun(run, n)
  {
    forall i, j | 0 <= i < j < |run.steps| && AcceptedAt(run, n, i) && AcceptedAt(run, n, j) && SameStream(run, i, j) ::
      TakesNothing(run, j)
  }

  ghost predicate TakesNothing(run: Run, j: nat)
    requires j < |run.steps| < |run.states|
  {
    run.steps[j].StepAppendEntries? && run.steps[j].id < |run.states[j].appends| ==>
      var p := run.states[j].appends[run.steps[j].id].dst;
      LogAt(run, j, p) <= LogAt(run, j + 1, p)
  }

  /** While a server stays in a term that another one leads, only an accepted message changes its log. */
  lemma LogChanges(c: State, h: Hist, step: Step, p: nat, t: nat)
    requires Inv(c, h) && Enabled(c, step) && InRange(c, step) && p < |c.servers|
    requires c.servers[p].currentTerm == t == Apply(c, step).servers[p].currentTerm
    requires t in h.reigns && h.reigns[t].leader != p
    ensures
      || Apply(c, step).servers[p].logs == c.servers[p].logs
      || (AcceptedIn(c, step) && c.appends[step.id].dst == p && c.appends[step.id].args.term == t)
  {
    hide HistOk, VotesOk, AppendsOk, LogOk, Growing;
    assert ServerOk(h, p, c.servers[p]);
  }

  lemma TermBetween(run: Run, n: nat, i: nat, x: nat, j: nat, p: nat)
    requires IsRun(run, n) && i <= x <= j < |run.states| && p < n
    ensures p < |run.states[i].servers| == |run.states[x].servers| == |run.states[j].servers|
    ensures run.states[i].servers[p].currentTerm == run.states[j].servers[p].currentTerm ==>
              run.states[x].servers[p].currentTerm == run.states[i].servers[p].currentTerm
  {
    hide HistAt;
    SameSize(run, n, i);
    SameSize(run, n, x);
    SameSize(run, n, j);
    TermsMonotone(run, n, i, x, p);
    TermsMonotone(run, n, x, j, p);
  }

  /** Between two messages of one stream the follower stays in their term, and if nothing is taken back its
      log has at the second one all that the first one installed. */
  lemma {:induction false} KeptSince(run: Run, n: nat, i: nat, x: nat, j: nat)
    requires IsRun(run, n) && i < x <= j < |run.steps| && NeverTakesBack(run, n)
    requires AcceptedAt(run, n, i) && AcceptedAt(run, n, j) && SameStream(run, i, j)
    ensures
      var p := run.states[i].appends[run.steps[i].id].dst;
      LogAt(run, i + 1, p) <= LogAt(run, x, p)
    decreases x
  {
    hide HistAt, Inv, NeverTakesBack, Apply, Record, Grows;
    var call := run.states[i].appends[run.steps[i].id];
    var p, t := call.dst, call.args.term;
    if x > i + 1 {
      KeptSince(run, n, i, x - 1, j);
      AcceptedEffect(run, n, i);
      AcceptedEffect(run, n, j);
      TermsMonotone(run, n, i + 1, j, p);
      TermBetween(run, n, i + 1, x - 1, j, p);
      TermBetween(run, n, i + 1, x, j, p);
      SameReignLater(run, n, i, x - 1, t);
      StepAt(run, n, x - 1);
      LogChanges(run.states[x - 1], HistAt(run, n, x - 1), run.steps[x - 1], p, t);
      if LogAt(run, x, p) != LogAt(run, x - 1, p) {
        TakenFrom(run, n, i, x - 1);
      }
    }
  }

  lemma TakenFrom(run: Run, n: nat, i: nat, j: nat)
    requires IsRun(run, n) && i < j < |run.steps| && NeverTakesBack(run, n)
    requires AcceptedAt(run, n, i) && AcceptedAt(run, n, j) && SameStream(run, i, j)
    ensures TakesNothing(run, j)
  {
    hide AcceptedAt, SameStream, TakesNothing;
  }

  lemma TakesNothingOnlyInOrder(run: Run, n: nat)
    requires IsRun(run, n) && NeverTakesBack(run, n)
    ensures NeverShrinks(run, n)
  {
    hide HistAt, Inv, NeverTakesBack, Grows;
    forall i, j | 0 <= i < j < |run.steps| && AcceptedAt(run, n, i) && AcceptedAt(run, n, j) && SameStream(run, i, j)
      ensures run.states[i].appends[run.steps[i].id].args.Reach() <= run.states[j].appends[run.steps[j].id].args.Reach()
    {
      KeptSince(run, n, i, j, j);
      TakenFrom(run, n, i, j);
      AcceptedEffect(run, n, i);
      AcceptedEffect(run, n, j);
    }
  }

  lemma {:induction false} AckedLater(run: Run, n: nat, i: nat, j: nat, b: Ballot)
    requires IsRun(run, n) && i <= j < |run.states| && b in HistAt(run, n, i).acked
    ensures b in HistAt(run, n, j).acked
    decreases j
  {
    hide HistAt, Inv, Record, Apply;
    if i < j {
      AckedLater(run, n, i, j - 1, b);
      StepAt(run, n, j - 1);
    }
  }

  lemma AckedAtOnce(run: Run, n: nat, i: nat)
    requires IsRun(run, n) && i < |run.steps| && AcceptedAt(run, n, i)
    ensures run.steps[i].StepAppendEntries? && run.steps[i].id < |run.states[i].appends|
    ensures
      var call := run.states[i].appends[run.steps[i].id];
      Ballot(call.dst, call.args.term) in HistAt(run, n, i + 1).acked
  {
    hide HistAt, Inv, Apply, Grows;
    StepAt(run, n, i);
  }

  lemma InOrderTakesNothing(run: Run, n: nat, i: nat, j: nat)
    requires IsRun(run, n) && NeverShrinks(run, n) && i < j < |run.steps|
    requires AcceptedAt(run, n, i) && AcceptedAt(run, n, j) && SameStream(run, i, j)
    ensures TakesNothing(run, j)
  {
    hide HistAt, Inv, NeverShrinks, Grows, SafeHist, SafeCalls, KeepsHeld;
    AcceptedEffect(run, n, i);
    AcceptedEffect(run, n, j);
    var call, h := run.states[j].appends[run.steps[j].id], HistAt(run, n, j);
    var p, t := call.dst, call.args.term;
    AckedAtOnce(run, n, i);
    AckedLater(run, n, i + 1, j, Ballot(p, t));
    TermsMonotone(run, n, i + 1, j, p);
    SafeAt(run, n, j);
    NoLossAt(run, n, j);
    assert SafeServer(h, p, run.states[j].servers[p]);
    assert h.reigns[t].log[..h.acked[Ballot(p, t)]] <= h.reigns[t].log[..call.args.Reach()];
  }

  /** The condition under which safety is proved is exactly that messages take nothing back. */
  lemma OrderIsKeepingEntries(run: Run, n: nat)
    requires IsRun(run, n)
    ensures NeverShrinks(run, n) <==> NeverTakesBack(run, n)
  {
    hide HistAt, Inv;
    if NeverTakesBack(run, n) {
      TakesNothingOnlyInOrder(run, n);
    }
    if NeverShrinks(run, n) {
      forall i, j | 0 <= i < j < |run.steps| && AcceptedAt(run, n, i) && AcceptedAt(run, n, j) && SameStream(run, i, j)
        ensures TakesNothing(run, j)
      {
        hide NeverShrinks, TakesNothing, AcceptedAt, SameStream;
        InOrderTakesNothing(run, n, i, j);
      }
    }
  }
}
