/** Whole runs: the history that goes with each state, and how it develops. */
module Runs {
  import opened RaftTypes
  import opened RaftServer
  import opened Cluster
  import opened History
  import opened Invariants
  import opened Growth
  import opened Steps
  import opened LogSteps

  lemma InitialInv(n: nat)
    ensures Inv(Initial(n), NoHistory(n))
  {
    var c, h := Initial(n), NoHistory(n);
    forall p | 0 <= p < n
      ensures ServerOk(h, p, c.servers[p])
    {
    }
  }

  ghost function HistAt(run: Run, n: nat, i: nat): (h: Hist)
    requires IsRun(run, n) && i < |run.states|
    ensures Inv(run.states[i], h)
  {
    if i == 0 then
      InitialInv(n);
      NoHistory(n)
    else
      var h := HistAt(run, n, i - 1);
      assert Next(run.states[i - 1], run.steps[i - 1], run.states[i]);
      StepKeeps(run.states[i - 1], h, run.steps[i - 1]);
      Record(run.states[i - 1], h, run.steps[i - 1])
  }

  /** Step i, as the invariants see it. */
  lemma StepAt(run: Run, n: nat, i: nat)
    requires IsRun(run, n) && i < |run.steps|
    ensures Keeps(run.states[i], HistAt(run, n, i), run.steps[i])
    ensures HistAt(run, n, i + 1) == Record(run.states[i], HistAt(run, n, i), run.steps[i])
    ensures run.states[i + 1] == Apply(run.states[i], run.steps[i])
  {
    assert Next(run.states[i], run.steps[i], run.states[i + 1]);
    StepKeeps(run.states[i], HistAt(run, n, i), run.steps[i]);
  }

  lemma {:induction false} SameSize(run: Run, n: nat, i: nat)
    requires IsRun(run, n) && i < |run.states|
    ensures |run.states[i].servers| == n
  {
    hide Inv, Record, Grows, HistAt, After;
    if i > 0 {
      SameSize(run, n, i - 1);
      StepAt(run, n, i - 1);
    }
  }

  ghost predicate Later(h: Hist, h': Hist) {
    && |h.terms| == |h'.terms|
    && (forall q :: 0 <= q < |h.terms| ==> h.terms[q] <= h'.terms[q])
    && (forall t :: t in h.reigns ==> t in h'.reigns && SameReign(h.reigns[t], h'.reigns[t]))
  }

  lemma {:induction false} HistLater(run: Run, n: nat, i: nat, j: nat)
    requires IsRun(run, n) && i <= j < |run.states|
    ensures Later(HistAt(run, n, i), HistAt(run, n, j))
    decreases j - i
  {
    hide Inv, Record, Apply, HistAt, Later, Grows;
    if i == j {
      LaterSelf(HistAt(run, n, i));
    } else {
      HistLater(run, n, i, j - 1);
      StepAt(run, n, j - 1);
      var p := Actor(run.states[j - 1], run.steps[j - 1]);
      StepLater(HistAt(run, n, i), HistAt(run, n, j - 1), HistAt(run, n, j), p);
    }
  }

  lemma LaterSelf(h: Hist)
    ensures Later(h, h)
  {
  }

  lemma StepLater(h: Hist, h': Hist, h'': Hist, p: nat)
    requires Later(h, h') && Grows(h', h'', p)
    ensures Later(h, h'')
  {
    forall t | t in h.reigns
      ensures t in h''.reigns && SameReign(h.reigns[t], h''.reigns[t])
    {
      assert SameReign(h.reigns[t], h'.reigns[t]);
      assert SameReign(h'.reigns[t], h''.reigns[t]);
    }
  }

  /** A message does not change while it travels. */
  lemma {:induction false} MessageFixed(run: Run, n: nat, i: nat, j: nat, id: nat)
    requires IsRun(run, n) && i <= j < |run.states| && id < |run.states[i].appends|
    ensures
      && id < |run.states[j].appends|
      && var a, b := run.states[i].appends[id], run.states[j].appends[id];
         a.src == b.src && a.dst == b.dst && a.args == b.args
    decreases j - i
  {
    hide Inv, Record, HistAt, Grows, After, AppendEntries, BuildArgs, InRange;
    if i < j {
      MessageFixed(run, n, i, j - 1, id);
      StepAt(run, n, j - 1);
    }
  }

  ghost function OutputAt(run: Run, n: nat, i: nat): seq<ApplyMsg>
    requires IsRun(run, n) && i < |run.steps|
  {
    StepAt(run, n, i);
    Output(run.states[i], run.steps[i])
  }

  /** Step i hands a follower a message that it accepts. */
  ghost predicate AcceptedAt(run: Run, n: nat, i: nat)
    requires IsRun(run, n) && i < |run.steps|
  {
    assert Next(run.states[i], run.steps[i], run.states[i + 1]);
    AcceptedIn(run.states[i], run.steps[i])
  }
}
