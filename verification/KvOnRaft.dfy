/** The key/value layer on top of Raft: what its handlers read from a peer's log is the committed log. */
module KvOnRaft {
  import opened RaftTypes
  import opened Cluster
  import opened Runs
  import opened RaftTheorems
  import opened SafetyTheorems
  import opened Applied
  import opened KvReplay
  import opened KvPeer

  /** The messages that p has sent on its applyCh since it was last started, in order. */
  ghost function SentMessages(run: Run, n: nat, p: nat, i: nat): seq<ApplyMsg>
    requires IsRun(run, n) && i < |run.states|
  {
    if i == 0 || run.steps[i - 1] == StepCrash(p) then []
    else
      SentMessages(run, n, p, i - 1) +
      (if ActorAt(run, n, i - 1) == p then OutputAt(run, n, i - 1) else [])
  }

  lemma {:induction false} SameIndexes(run: Run, n: nat, p: nat, i: nat)
    requires IsRun(run, n) && i < |run.states|
    ensures Indexes(SentMessages(run, n, p, i)) == Sent(run, n, p, i)
  {
    if i > 0 && run.steps[i - 1] != StepCrash(p) {
      SameIndexes(run, n, p, i - 1);
      IndexesJoin(SentMessages(run, n, p, i - 1), OutputAt(run, n, i - 1));
    }
  }

  lemma IndexesJoin(a: seq<ApplyMsg>, b: seq<ApplyMsg>)
    ensures Indexes(a + b) == Indexes(a) + Indexes(b)
  {
  }

  /** A key/value server whose apply goroutine has read what its peer sent has as currentIndex the number of
      entries applied in this life: an index is applied if and only if currentIndex has reached it. */
  lemma CurrentIndexIsApplied(run: Run, n: nat, p: nat, i: nat, index: nat)
    requires IsRun(run, n) && i < |run.states| && p < n && 1 <= index
    ensures Largest(0, SentMessages(run, n, p, i)) >= index <==> index in Sent(run, n, p, i)
  {
    hide Sent, SentMessages;
    var m := GapFreeApply(run, n, p, i);
    var msgs := SentMessages(run, n, p, i);
    SameIndexes(run, n, p, i);
    var r := Largest(0, msgs);
    forall k | 0 <= k < |msgs| ensures msgs[k].index in Indexes(msgs) {
      assert msgs[k] in msgs;
    }
    if 1 <= m {
      assert m in Indexes(msgs);
      var x :| x in msgs && x.index == m;
      var k :| 0 <= k < |msgs| && msgs[k] == x;
    }
  }

  function Commands(log: Log): seq<Op> {
    seq(|log|, i requires 0 <= i < |log| => log[i].command)
  }

  /** What a Get at server p would replay in state i. */
  ghost function ReplayedAt(run: Run, n: nat, i: nat, p: nat): seq<Op>
    requires IsRun(run, n) && i < |run.states| && p < |run.states[i].servers|
    requires run.states[i].servers[p].commitIndex <= |run.states[i].servers[p].logs|
  {
    var s := run.states[i].servers[p];
    Commands(s.logs[..s.commitIndex])
  }

  /** Two Gets, at any servers and times, see one history: the database of one is where the other,
      replaying on, arrives. */
  lemma GetsSeeOneHistory(run: Run, n: nat, i: nat, p: nat, j: nat, q: nat)
    requires IsRun(run, n) && NeverShrinks(run, n) && i < |run.states| && j < |run.states|
    requires p < |run.states[i].servers| && q < |run.states[j].servers|
    ensures run.states[i].servers[p].commitIndex <= |run.states[i].servers[p].logs|
    ensures run.states[j].servers[q].commitIndex <= |run.states[j].servers[q].logs|
    ensures
      var a, b := ReplayedAt(run, n, i, p), ReplayedAt(run, n, j, q);
      || (a <= b && Replay(b) == ReplayFrom(Replay(a), b[|a|..]))
      || (b <= a && Replay(a) == ReplayFrom(Replay(b), a[|b|..]))
  {
    hide IsRun, NeverShrinks, CommittedAt, Commands, Replay, ReplayFrom;
    CommitIndexInCommitted(run, n, i, p);
    CommitIndexInCommitted(run, n, j, q);
    if i <= j {
      CommittedGrows(run, n, i, j);
    } else {
      CommittedGrows(run, n, j, i);
    }
    var s, s' := run.states[i].servers[p], run.states[j].servers[q];
    OneExtendsOther(s.logs[..s.commitIndex], s'.logs[..s'.commitIndex], CommittedAt(run, n, if i <= j then j else i));
  }

  lemma OneExtendsOther(a: Log, b: Log, whole: Log)
    requires a <= whole && b <= whole
    ensures
      var x, y := Commands(a), Commands(b);
      || (x <= y && Replay(y) == ReplayFrom(Replay(x), y[|x|..]))
      || (y <= x && Replay(x) == ReplayFrom(Replay(y), x[|y|..]))
  {
    if |a| <= |b| {
      ReplayExtends(Commands(a), Commands(b));
    } else {
      ReplayExtends(Commands(b), Commands(a));
    }
  }

  lemma ReplayExtends(a: seq<Op>, b: seq<Op>)
    requires a <= b
    ensures Replay(b) == ReplayFrom(Replay(a), b[|a|..])
  {
    hide ReplayFrom;
    assert a + b[|a|..] == b;
    ReplayResumes(EMPTY, a, b[|a|..]);
  }

  /** PutAppend's test reads the peer's current log, which may have been cut and refilled since. Once
      the peer has applied that far, the entry it reads is the committed one. */
  lemma AcknowledgementReadsCommitted(run: Run, n: nat, i: nat, j: nat, x: ApplyMsg, index: nat)
    requires IsRun(run, n) && NeverShrinks(run, n) && i < |run.steps| && i < j < |run.states|
    requires x in OutputAt(run, n, i) && 1 <= index <= x.index
    ensures ActorAt(run, n, i) < |run.states[j].servers|
    ensures
      var log := run.states[j].servers[ActorAt(run, n, i)].logs;
      && index <= |log| && index <= |CommittedAt(run, n, j)|
      && log[index - 1] == CommittedAt(run, n, j)[index - 1]
  {
    hide IsRun, NeverShrinks, OutputAt, CommittedAt, ActorAt;
    AppliedPrefixStays(run, n, i, j, x);
    var log := run.states[j].servers[ActorAt(run, n, i)].logs;
    assert log[..x.index][index - 1] == CommittedAt(run, n, j)[..x.index][index - 1];
  }
}
