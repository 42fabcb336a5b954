/** What holds in every run: loss, delay, reordering and crashes included. */
module RaftTheorems {
  import opened RaftTypes
  import opened RaftServer
  import opened Cluster
  import opened History
  import opened Invariants
  import opened Growth
  import opened LogSteps
  import opened CommitRule
  import opened PeerRules
  import opened Runs

  predicate IsLeader(c: State, p: nat, term: nat) {
    p < |c.servers| && c.servers[p].role == Leader && c.servers[p].currentTerm == term
  }

  lemma LeaderReigns(run: Run, n: nat, i: nat, p: nat, term: nat)
    requires IsRun(run, n) && i < |run.states| && IsLeader(run.states[i], p, term)
    ensures
      var h := HistAt(run, n, i);
      && term in h.reigns && h.reigns[term].leader == p
      && run.states[i].servers[p].logs == h.reigns[term].log
  {
    hide HistAt;
    assert ServerOk(HistAt(run, n, i), p, run.states[i].servers[p]);
  }

  lemma SameReignLater(run: Run, n: nat, i: nat, j: nat, term: nat)
    requires IsRun(run, n) && i <= j < |run.states| && term in HistAt(run, n, i).reigns
    ensures term in HistAt(run, n, j).reigns
    ensures SameReign(HistAt(run, n, i).reigns[term], HistAt(run, n, j).reigns[term])
  {
    hide HistAt, Inv;
    HistLater(run, n, i, j);
  }

  /** At most one server is ever leader in a term. */
  lemma ElectionSafety(run: Run, n: nat, i: nat, j: nat, a: nat, b: nat, term: nat)
    requires IsRun(run, n) && i < |run.states| && j < |run.states|
    requires IsLeader(run.states[i], a, term) && IsLeader(run.states[j], b, term)
    ensures a == b
  {
    hide HistAt, Inv;
    LeaderReigns(run, n, i, a, term);
    LeaderReigns(run, n, j, b, term);
    if i <= j {
      SameReignLater(run, n, i, j, term);
    } else {
      SameReignLater(run, n, j, i, term);
    }
  }

  /** The log of a term's leader only grows while the term lasts, whatever happens elsewhere. */
  lemma LeaderAppendOnly(run: Run, n: nat, i: nat, j: nat, a: nat, term: nat)
    requires IsRun(run, n) && i <= j < |run.states|
    requires IsLeader(run.states[i], a, term) && IsLeader(run.states[j], a, term)
    ensures run.states[i].servers[a].logs <= run.states[j].servers[a].logs
  {
    hide HistAt, Inv;
    LeaderReigns(run, n, i, a, term);
    LeaderReigns(run, n, j, a, term);
    SameReignLater(run, n, i, j, term);
  }

  lemma LogOkLater(run: Run, n: nat, i: nat, j: nat, log: Log)
    requires IsRun(run, n) && i <= j < |run.states| && LogOk(HistAt(run, n, i), log)
    ensures LogOk(HistAt(run, n, j), log)
  {
    hide HistAt, Inv;
    var h, h' := HistAt(run, n, i), HistAt(run, n, j);
    forall k | 0 <= k < |log|
      ensures Sourced(h', log, k)
    {
      assert Sourced(h, log, k);
      SameReignLater(run, n, i, j, log[k].term);
      assert h'.reigns[log[k].term].log[..k + 1] == h.reigns[log[k].term].log[..k + 1];
    }
  }

  /** Two logs, or two versions of one log, with the same term at an index are equal up to that index. */
  lemma LogMatching(run: Run, n: nat, i: nat, j: nat, a: nat, b: nat, k: nat)
    requires IsRun(run, n) && i <= j < |run.states|
    requires a < |run.states[i].servers| && k < |run.states[i].servers[a].logs|
    requires b < |run.states[j].servers| && k < |run.states[j].servers[b].logs|
    requires run.states[i].servers[a].logs[k].term == run.states[j].servers[b].logs[k].term
    ensures run.states[i].servers[a].logs[..k + 1] == run.states[j].servers[b].logs[..k + 1]
  {
    hide HistAt;
    assert ServerOk(HistAt(run, n, i), a, run.states[i].servers[a]);
    assert ServerOk(HistAt(run, n, j), b, run.states[j].servers[b]);
    LogOkLater(run, n, i, j, run.states[i].servers[a].logs);
    LogsMatch(HistAt(run, n, j), run.states[i].servers[a].logs, run.states[j].servers[b].logs, k);
  }

  /** A server's term never decreases, not even over crashes. */
  lemma TermsMonotone(run: Run, n: nat, i: nat, j: nat, p: nat)
    requires IsRun(run, n) && i <= j < |run.states| && p < n
    ensures p < |run.states[i].servers| && p < |run.states[j].servers|
    ensures run.states[i].servers[p].currentTerm <= run.states[j].servers[p].currentTerm
  {
    hide HistAt;
    SameSize(run, n, i);
    SameSize(run, n, j);
    assert ServerOk(HistAt(run, n, i), p, run.states[i].servers[p]);
    assert ServerOk(HistAt(run, n, j), p, run.states[j].servers[p]);
    HistLater(run, n, i, j);
  }

  /** What a restart would read is what the server has in memory. */
  lemma PersistedMatchesMemory(run: Run, n: nat, i: nat, p: nat)
    requires IsRun(run, n) && i < |run.states| && p < |run.states[i].servers|
    ensures
      var s := run.states[i].servers[p];
      var restarted := Boot(s.disk);
      && restarted.currentTerm == s.currentTerm && restarted.votedFor == s.votedFor && restarted.logs == s.logs
      && restarted.role == Follower && restarted.commitIndex == 0
  {
    hide HistAt;
    assert ServerOk(HistAt(run, n, i), p, run.states[i].servers[p]);
  }

  /** No step reads or slices out of range. */
  lemma NeverOutOfRange(run: Run, n: nat, i: nat)
    requires IsRun(run, n) && i < |run.steps|
    ensures Enabled(run.states[i], run.steps[i]) && InRange(run.states[i], run.steps[i])
  {
    hide HistAt, Inv, Grows;
    StepAt(run, n, i);
  }

  lemma Bounds(run: Run, n: nat, i: nat)
    requires IsRun(run, n) && i < |run.states|
    ensures
      var c := run.states[i];
      && (forall p :: 0 <= p < |c.servers| ==> c.servers[p].commitIndex <= |c.servers[p].logs|)
      && (forall id :: 0 <= id < |c.appends| ==> c.appends[id].args.leaderCommit <= c.appends[id].args.Reach())
      && (forall p, q :: 0 <= p < |c.servers| && 0 <= q < |c.servers| && c.servers[p].role == Leader ==>
            && |c.servers[p].nextIndex| == |c.servers[p].matchIndex| == |c.servers|
            && 1 <= c.servers[p].nextIndex[q] <= |c.servers[p].logs| + 1
            && c.servers[p].matchIndex[q] <= |c.servers[p].logs|)
  {
    hide HistAt;
    var c, h := run.states[i], HistAt(run, n, i);
    forall id | 0 <= id < |c.appends|
      ensures c.appends[id].args.leaderCommit <= c.appends[id].args.Reach()
    {
      assert AppendCallOk(h, c.appends[id]);
    }
    forall p | 0 <= p < |c.servers|
      ensures ServerOk(h, p, c.servers[p])
    {
    }
    forall p, q | 0 <= p < |c.servers| && 0 <= q < |c.servers| && c.servers[p].role == Leader
      ensures c.servers[p].matchIndex[q] <= |c.servers[p].logs|
    {
      assert ServerOk(h, p, c.servers[p]);
      var b := Ballot(q, c.servers[p].currentTerm);
      assert b in h.acked ==> AckedOk(h, b);
    }
  }

  /** The message that a build step puts on the way, seen later. */
  lemma MessageBuilt(run: Run, n: nat, i: nat, j: nat, p: nat, peer: nat)
    requires IsRun(run, n) && i < j < |run.states| && run.steps[i] == StepBuild(p, peer)
    ensures p < |run.states[i].servers| && |run.states[i].appends| < |run.states[j].appends|
    ensures
      var s, h := run.states[i].servers[p], HistAt(run, n, i);
      var call := run.states[j].appends[|run.states[i].appends|];
      && s.currentTerm in h.reigns && s.logs == h.reigns[s.currentTerm].log
      && call.src == p && call.dst == peer
      && call.args.term == s.currentTerm && call.args.Reach() == |s.logs|
  {
    hide HistAt, Grows, Record;
    assert Next(run.states[i], run.steps[i], run.states[i + 1]);
    var s, h := run.states[i].servers[p], HistAt(run, n, i);
    assert ServerOk(h, p, s);
    BuildOk(h, p, s, peer);
    hide Inv;
    StepAt(run, n, i);
    MessageFixed(run, n, i + 1, j, |run.states[i].appends|);
  }

  function LogAt(run: Run, i: nat, p: nat): Log {
    if i < |run.states| && p < |run.states[i].servers| then run.states[i].servers[p].logs else []
  }

  /** What an accepted message does, in terms of the leader's log. */
  lemma AcceptedEffect(run: Run, n: nat, j: nat)
    requires IsRun(run, n) && j < |run.steps| && AcceptedAt(run, n, j)
    ensures run.steps[j].StepAppendEntries? && run.steps[j].id < |run.states[j].appends|
    ensures
      var call, h := run.states[j].appends[run.steps[j].id], HistAt(run, n, j);
      var p, t := call.dst, call.args.term;
      && p < n && |run.states[j].servers| == |run.states[j + 1].servers| == n
      && t in h.reigns && h.reigns[t].leader != p && call.args.Reach() <= |h.reigns[t].log|
      && LogAt(run, j + 1, p) == h.reigns[t].log[..call.args.Reach()]
      && run.states[j].servers[p].currentTerm <= t == run.states[j + 1].servers[p].currentTerm
  {
    hide HistAt, Grows, Record;
    SameSize(run, n, j);
    SameSize(run, n, j + 1);
    assert Next(run.states[j], run.steps[j], run.states[j + 1]);
    var call, h := run.states[j].appends[run.steps[j].id], HistAt(run, n, j);
    var s := run.states[j].servers[call.dst];
    assert AppendCallOk(h, call) && ServerOk(h, call.dst, s);
    AcceptCopies(h, call.dst, s, call.src, call.args);
    hide Inv;
    StepAt(run, n, j);
  }

  /** An accepted message leaves the follower with the sender's whole log as it was when the message
      was built, whatever has happened to either of them in between. */
  lemma AcceptedMessageCopiesLog(run: Run, n: nat, i: nat, j: nat, p: nat, peer: nat)
    requires IsRun(run, n) && i < j < |run.steps|
    requires run.steps[i] == StepBuild(p, peer)
    requires run.steps[j] == StepAppendEntries(|run.states[i].appends|) && AcceptedAt(run, n, j)
    ensures p < |run.states[i].servers| && peer < |run.states[j + 1].servers|
    ensures run.states[j + 1].servers[peer].logs == run.states[i].servers[p].logs
  {
    hide HistAt, Inv, AcceptedAt;
    MessageBuilt(run, n, i, j, p, peer);
    AcceptedEffect(run, n, j);
    var call := run.states[j].appends[|run.states[i].appends|];
    SameReignLater(run, n, i, j, call.args.term);
    assert LogAt(run, j + 1, peer) == run.states[j + 1].servers[peer].logs;
  }

  // ---- gap-free application ----

  function Indexes(out: seq<ApplyMsg>): set<nat> {
    set m | m in out :: m.index
  }

  /** The indexes that p has sent on its applyCh since it was last started. */
  ghost function Sent(run: Run, n: nat, p: nat, i: nat): set<nat>
    requires IsRun(run, n) && i < |run.states|
  {
    if i == 0 || run.steps[i - 1] == StepCrash(p) then {}
    else
      Sent(run, n, p, i - 1) +
      (if ActorAt(run, n, i - 1) == p then Indexes(OutputAt(run, n, i - 1)) else {})
  }

  ghost function ActorAt(run: Run, n: nat, i: nat): nat
    requires IsRun(run, n) && i < |run.steps|
  {
    assert Next(run.states[i], run.steps[i], run.states[i + 1]);
    Actor(run.states[i], run.steps[i])
  }

  predicate Consecutive(out: seq<ApplyMsg>, from: nat) {
    forall k :: 0 <= k < |out| ==> out[k].index == from + k + 1
  }

  /** A step sends the entries after its commit index, one after the other. */
  lemma OutputConsecutive(c: State, h: Hist, step: Step)
    requires Inv(c, h) && Enabled(c, step) && InRange(c, step)
    ensures
      var s, s' := c.servers[Actor(c, step)], After(c, step);
      && Consecutive(Output(c, step), s.commitIndex)
      && |Output(c, step)| == (if s'.commitIndex > s.commitIndex then s'.commitIndex - s.commitIndex else 0)
  {
    hide HistOk, LogOk, VotesOk, Growing, Majority, PrefixMatches, AppendEntries, HandleAppendReply, Consecutive;
    hide AppendOutput, AppendReplyOutput;
    var s := c.servers[Actor(c, step)];
    match step
    case StepAppendEntries(id) => AppendConsecutive(s, c.appends[id].args);
    case StepAppendReply(id) =>
      var call := c.appends[id];
      ReplyConsecutive(s, call.src, |c.servers|, call.dst, call.args, call.status.reply);
    case _ => NothingSent(s, After(c, step));
  }

  ghost predicate SendsFrom(s: Server, s': Server, out: seq<ApplyMsg>) {
    && Consecutive(out, s.commitIndex)
    && |out| == if s'.commitIndex > s.commitIndex then s'.commitIndex - s.commitIndex else 0
  }

  lemma NothingSent(s: Server, s': Server)
    ensures s'.commitIndex <= s.commitIndex ==> SendsFrom(s, s', [])
  {
  }

  lemma AppendConsecutive(s: Server, args: AppendArgs)
    requires AppendInRange(s, args)
    ensures SendsFrom(s, AppendEntries(s, args).0, AppendOutput(s, args))
  {
  }

  lemma ReplyConsecutive(s: Server, me: nat, n: nat, peer: nat, args: AppendArgs, reply: AppendReply)
    requires AppendReplyInRange(s, n, peer)
    ensures SendsFrom(s, HandleAppendReply(s, me, n, peer, args, reply), AppendReplyOutput(s, me, n, peer, args, reply))
  {
    if Advances(s, args, reply) {
      var s2 := Matched(s, peer, args, reply);
      CommitScanRange(s2, me, s2.commitIndex, s2.commitIndex);
    }
  }

  lemma ConsecutiveIndexes(out: seq<ApplyMsg>, from: nat)
    requires Consecutive(out, from)
    ensures forall x: nat :: x in Indexes(out) <==> from < x <= from + |out|
  {
    forall x: nat | from < x <= from + |out|
      ensures x in Indexes(out)
    {
      assert out[x - from - 1] in out;
    }
  }

  /** Within one incarnation the indexes sent are always exactly 1..m for some m, and the commit index,
      after which the next batch starts, is at most m. */
  lemma {:induction false} GapFreeApply(run: Run, n: nat, p: nat, i: nat) returns (m: nat)
    requires IsRun(run, n) && i < |run.states| && p < n
    ensures p < |run.states[i].servers| && run.states[i].servers[p].commitIndex <= m
    ensures forall x: nat :: x in Sent(run, n, p, i) <==> 1 <= x <= m
  {
    hide HistAt, Inv, Grows, Record, Output, Indexes, Consecutive;
    SameSize(run, n, i);
    if i == 0 || run.steps[i - 1] == StepCrash(p) {
      m := 0;
      if i > 0 {
        StepAt(run, n, i - 1);
      }
    } else {
      m := GapFreeApply(run, n, p, i - 1);
      StepAt(run, n, i - 1);
      if ActorAt(run, n, i - 1) == p {
        var c, step := run.states[i - 1], run.steps[i - 1];
        OutputConsecutive(c, HistAt(run, n, i - 1), step);
        var out, from := OutputAt(run, n, i - 1), c.servers[p].commitIndex;
        ConsecutiveIndexes(out, from);
        m := Max(m, from + |out|);
      }
    }
  }

  /** Each batch is a stretch of consecutive indexes that starts at most one after what was sent before. */
  lemma BatchContinues(run: Run, n: nat, i: nat) returns (m: nat)
    requires IsRun(run, n) && i < |run.steps|
    ensures forall x: nat :: x in Sent(run, n, ActorAt(run, n, i), i) <==> 1 <= x <= m
    ensures
      var out := OutputAt(run, n, i);
      forall k :: 0 <= k < |out| ==> 1 <= out[0].index <= m + 1 && out[k].index == out[0].index + k
  {
    hide HistAt, Inv, Grows, Record, Output, Sent;
    StepAt(run, n, i);
    SameSize(run, n, i);
    m := GapFreeApply(run, n, ActorAt(run, n, i), i);
    OutputConsecutive(run.states[i], HistAt(run, n, i), run.steps[i]);
  }

  // ---- repair ----

  /** While p stays leader of the term and builds nothing for peer, nextIndex[peer] stays at 1. */
  lemma {:induction false} NextIndexStays(run: Run, n: nat, i: nat, j: nat, p: nat, peer: nat, term: nat)
    requires IsRun(run, n) && i <= j < |run.states|
    requires forall x :: i <= x <= j ==> IsLeader(run.states[x], p, term)
    requires forall x :: i <= x < j ==> run.steps[x] != StepBuild(p, peer)
    requires IsLeader(run.states[i], p, term) && IsLeader(run.states[j], p, term)
    requires peer < |run.states[i].servers[p].nextIndex| && run.states[i].servers[p].nextIndex[peer] == 1
    ensures peer < |run.states[j].servers[p].nextIndex| && run.states[j].servers[p].nextIndex[peer] == 1
    decreases j - i
  {
    hide HistAt, Inv, Grows, Record, Apply;
    if i < j {
      NextIndexStays(run, n, i, j - 1, p, peer, term);
      StepAt(run, n, j - 1);
      assert IsLeader(run.states[j - 1], p, term) && IsLeader(run.states[j], p, term);
      NextIndexStep(run.states[j - 1], run.steps[j - 1], p, peer, term);
    }
  }

  lemma NextIndexStep(c: State, step: Step, p: nat, peer: nat, term: nat)
    requires Enabled(c, step) && InRange(c, step) && step != StepBuild(p, peer)
    requires IsLeader(c, p, term) && IsLeader(Apply(c, step), p, term)
    requires peer < |c.servers[p].nextIndex| && c.servers[p].nextIndex[peer] == 1
    ensures
      var s' := Apply(c, step).servers[p];
      peer < |s'.nextIndex| && s'.nextIndex[peer] == 1
  {
    hide CommitScan, Majority, PrefixMatches, UpToDate, VotesAfter, AppendsAfter;
  }

  /** After a mismatch the next message for that peer starts at the first entry, carries the whole log,
      and is accepted by any follower that has not moved to a higher term. */
  lemma RepairBound(run: Run, n: nat, i: nat, j: nat, id: nat, p: nat, peer: nat, term: nat)
    requires IsRun(run, n) && i < j < |run.steps|
    requires run.steps[i] == StepAppendReply(id) && id < |run.states[i].appends|
    requires run.states[i].appends[id].src == p && run.states[i].appends[id].dst == peer
    requires run.states[i].appends[id].status.AppendReplied? && !run.states[i].appends[id].status.reply.success
    requires forall x :: i <= x <= j ==> IsLeader(run.states[x], p, term)
    requires forall x :: i <= x < j ==> run.steps[x] != StepBuild(p, peer)
    requires run.steps[j] == StepBuild(p, peer)
    ensures |run.states[j + 1].appends| == |run.states[j].appends| + 1
    ensures
      var args := run.states[j + 1].appends[|run.states[j].appends|].args;
      && args.term == term && args.prevLogIndex == 0 && args.entries == run.states[j].servers[p].logs
      && forall s: Server :: s.currentTerm <= term ==>
           Accepts(s, args) && AppendEntries(s, args).0.logs == run.states[j].servers[p].logs
  {
    hide HistAt, Inv, Grows, Record;
    StepAt(run, n, i);
    assert IsLeader(run.states[i], p, term) && IsLeader(run.states[i + 1], p, term);
    NextIndexStays(run, n, i + 1, j, p, peer, term);
    assert IsLeader(run.states[j], p, term);
    StepAt(run, n, j);
  }

  // ---- the commit rule ----

  /** In every run, a success reply of the term makes the leader note how far the message reached, whether or
      not it had entries, and commit by the rule of Figure 2. */
  lemma CommitFollowsRule(run: Run, n: nat, i: nat, p: nat, id: nat)
    requires IsRun(run, n) && i < |run.steps| && run.steps[i] == StepAppendReply(id) && id < |run.states[i].appends|
    requires p == run.states[i].appends[id].src && p < |run.states[i].servers|
    requires
      var call, s := run.states[i].appends[id], run.states[i].servers[p];
      && call.status.AppendReplied? && call.status.reply.success && call.status.reply.term <= s.currentTerm
      && s.role == Leader && call.args.term == s.currentTerm
    ensures p < |run.states[i + 1].servers|
    ensures
      var call, s, s' := run.states[i].appends[id], run.states[i].servers[p], run.states[i + 1].servers[p];
      && call.dst < |s.matchIndex|
      && var matched := s.(matchIndex := s.matchIndex[call.dst := call.args.prevLogIndex + |call.args.entries|]);
         && s' == matched.(commitIndex := s'.commitIndex)
         && CommitsLargest(matched, p, s'.commitIndex) && s.commitIndex <= s'.commitIndex
  {
    hide HistAt, Record, Grows, CommitsLargest, TermsSorted, HandleAppendReply, Advances;
    hide HistOk, LogOk, VotesOk, AppendsOk;
    var h, s, call := HistAt(run, n, i), run.states[i].servers[p], run.states[i].appends[id];
    assert ServerOk(h, p, s);
    LogIsSorted(h, p, s);
    hide Inv, ServerOk;
    StepAt(run, n, i);
    AppendReplyKeepsRule(s, p, |run.states[i].servers|, call.dst, call.args, call.status.reply);
  }

  lemma LogIsSorted(h: Hist, p: nat, s: Server)
    requires HistOk(h) && ServerOk(h, p, s)
    ensures TermsSorted(s)
  {
    forall i, j | 0 <= i <= j < |s.logs|
      ensures s.logs[i].term <= s.logs[j].term
    {
      LogSorted(h, s.logs, i, j);
    }
  }
}
