/** Log replication: Start, building messages, AppendEntries and its reply. */
module LogSteps {
  import opened RaftTypes
  import opened RaftServer
  import opened Cluster
  import opened History
  import opened Invariants
  import opened Growth
  import opened Steps

  // ---- log matching ----

  /** Two logs of the cluster that have the same term at an index agree up to that index. */
  lemma LogsMatch(h: Hist, a: Log, b: Log, i: nat)
    requires LogOk(h, a) && LogOk(h, b) && i < |a| && i < |b| && a[i].term == b[i].term
    ensures a[..i + 1] == b[..i + 1]
  {
    assert Sourced(h, a, i) && Sourced(h, b, i);
  }

  /** Terms never decrease along a log. */
  lemma LogSorted(h: Hist, log: Log, i: nat, j: nat)
    requires HistOk(h) && LogOk(h, log) && i <= j < |log|
    ensures log[i].term <= log[j].term
  {
    assert Sourced(h, log, j);
    var t := log[j].term;
    assert ReignOk(h, t);
    assert log[i] == log[..j + 1][i] == h.reigns[t].log[..j + 1][i] == h.reigns[t].log[i];
  }

  /** The prefix check, truncation and append of AppendEntries copy the leader's log as it was when
      the message was built. */
  lemma AcceptCopies(h: Hist, p: nat, s: Server, src: nat, args: AppendArgs)
    requires HistOk(h) && ServerOk(h, p, s) && AppendArgsOk(h, src, args) && Accepts(s, args)
    ensures s.logs[..args.prevLogIndex] + args.entries == h.reigns[args.term].log[..args.Reach()]
  {
    var log := h.reigns[args.term].log;
    assert ReignOk(h, args.term);
    var k := args.prevLogIndex;
    if k > 0 {
      LogsMatch(h, s.logs, log, k - 1);
    }
    assert s.logs[..k] == log[..k];
    assert log[..args.Reach()] == log[..k] + log[k..args.Reach()];
  }

  lemma PrefixOk(h: Hist, log: Log, k: nat)
    requires LogOk(h, log) && k <= |log|
    ensures LogOk(h, log[..k])
  {
    forall i | 0 <= i < k
      ensures Sourced(h, log[..k], i)
    {
      assert Sourced(h, log, i);
      assert log[..k][..i + 1] == log[..i + 1];
    }
  }

  // ---- Start ----

  lemma StartGrows(h: Hist, h': Hist, p: nat, s: Server, e: Entry)
    requires HistOk(h) && ServerOk(h, p, s) && s.role == Leader
    requires e.term == s.currentTerm
    requires h' == h.(reigns := h.reigns[s.currentTerm := h.reigns[s.currentTerm].(log := s.logs + [e])])
    ensures Grows(h, h', p)
  {
    TermRises(h, h', p, s.currentTerm);
    VotesSame(h, h', p);
    AcksSame(h, h', p);
  }

  lemma StartLog(h: Hist, h': Hist, p: nat, s: Server, e: Entry)
    requires HistOk(h) && ServerOk(h, p, s) && s.role == Leader && Grows(h, h', p)
    requires e.term == s.currentTerm
    requires h'.reigns == h.reigns[s.currentTerm := h.reigns[s.currentTerm].(log := s.logs + [e])]
    ensures LogOk(h', s.logs + [e])
  {
    hide CandidateOk, VotedForOk, DiskOk, VoteOk, RanOk, VotesGrow, AcksGrow;
    var t, log := s.currentTerm, s.logs + [e];
    assert ReignOk(h, t);
    LogStays(h, h', p, s.logs);
    forall i | 0 <= i < |log|
      ensures Sourced(h', log, i)
    {
      if i < |s.logs| {
        assert Sourced(h', s.logs, i);
        assert log[..i + 1] == s.logs[..i + 1];
      }
    }
  }

  lemma StartReign(h: Hist, h': Hist, p: nat, s: Server, e: Entry)
    requires HistOk(h) && ServerOk(h, p, s) && s.role == Leader && Grows(h, h', p)
    requires e.term == s.currentTerm
    requires h' == h.(reigns := h.reigns[s.currentTerm := h.reigns[s.currentTerm].(log := s.logs + [e])])
    requires LogOk(h', s.logs + [e])
    ensures ReignOk(h', s.currentTerm)
  {
    hide VoteOk, RanOk, AckedOk, VotedForOk, CandidateOk, DiskOk;
    assert ReignOk(h, s.currentTerm);
    hide HistOk, LogOk, Grows;
  }

  lemma StartHist(h: Hist, h': Hist, p: nat, s: Server, e: Entry)
    requires HistOk(h) && Grows(h, h', p) && s.currentTerm in h.reigns
    requires h' == h.(reigns := h.reigns[s.currentTerm := h.reigns[s.currentTerm].(log := s.logs + [e])])
    requires ReignOk(h', s.currentTerm)
    ensures HistOk(h')
  {
    HistStays(h, h', p);
  }

  lemma StartServer(h: Hist, h': Hist, p: nat, s: Server, command: Command)
    requires HistOk(h') && ServerOk(h, p, s) && s.role == Leader && Grows(h, h', p)
    requires LogOk(h', s.logs + [Entry(command, s.currentTerm)])
    requires h' == h.(reigns := h.reigns[s.currentTerm :=
                        h.reigns[s.currentTerm].(log := s.logs + [Entry(command, s.currentTerm)])])
    ensures ServerOk(h', p, Start(s, command))
  {
    hide LogOk, HistOk, Grows;
  }

  lemma StartKeeps(c: State, h: Hist, p: nat, command: Command)
    requires Inv(c, h) && Enabled(c, StepStart(p, command))
    ensures Keeps(c, h, StepStart(p, command))
  {
    hide HistOk, LogOk, VotesOk, AppendsOk, Grows;
    var step := StepStart(p, command);
    var h' := Record(c, h, step);
    var s := c.servers[p];
    assert ServerOk(h, p, s);
    assert h.terms[p := s.currentTerm] == h.terms;
    if s.role == Leader {
      var e := Entry(command, s.currentTerm);
      StartGrows(h, h', p, s, e);
      StartLog(h, h', p, s, e);
      StartReign(h, h', p, s, e);
      StartHist(h, h', p, s, e);
      StartServer(h, h', p, s, command);
    } else {
      assert h' == h;
      Unchanged(h, p);
    }
    VotesStay(c, h, h', p);
    AppendsStay(c, h, h', p);
    Gather(c, h, step);
  }

  // ---- building a message ----

  lemma BuildOk(h: Hist, p: nat, s: Server, peer: nat)
    requires HistOk(h) && ServerOk(h, p, s) && s.role == Leader && peer < |h.terms|
    ensures BuildInRange(s, peer)
    ensures AppendArgsOk(h, p, BuildArgs(s, p, peer))
    ensures BuildArgs(s, p, peer).Reach() == |s.logs|
    ensures ServerOk(h, p, Build(s, p, peer))
  {
    assert ReignOk(h, s.currentTerm);
    assert BuildInRange(s, peer);
    var args := BuildArgs(s, p, peer);
    assert args.entries == s.logs[args.prevLogIndex..];
  }

  lemma BuildKeeps(c: State, h: Hist, p: nat, peer: nat)
    requires Inv(c, h) && Enabled(c, StepBuild(p, peer))
    ensures Keeps(c, h, StepBuild(p, peer))
  {
    hide HistOk, LogOk, VotesOk;
    var step := StepBuild(p, peer);
    var s := c.servers[p];
    assert ServerOk(h, p, s);
    BuildOk(h, p, s, peer);
    assert Record(c, h, step) == h by {
      assert h.terms[p := s.currentTerm] == h.terms;
    }
    Unchanged(h, p);
    forall i | 0 <= i < |c.appends| && c.appends[i].args.term == s.currentTerm
      ensures c.appends[i].args.Reach() <= |s.logs|
    {
      assert AppendCallOk(h, c.appends[i]);
    }
    Gather(c, h, step);
  }

  // ---- AppendEntries at the follower ----

  lemma AppendRange(h: Hist, s: Server, src: nat, args: AppendArgs)
    requires AppendArgsOk(h, src, args)
    ensures AppendInRange(s, args)
  {
  }

  lemma AcceptedLog(h: Hist, h': Hist, p: nat, s: Server, src: nat, args: AppendArgs)
    requires HistOk(h) && HistOk(h') && ServerOk(h, p, s) && AppendArgsOk(h, src, args) && Accepts(s, args)
    requires h'.reigns == h.reigns
    ensures
      var log := AppendEntries(s, args).0.logs;
      LogOk(h', log) && forall i :: 0 <= i < |log| ==> log[i].term <= args.term
  {
    AcceptCopies(h, p, s, src, args);
    assert ReignOk(h', args.term);
    PrefixOk(h', h.reigns[args.term].log, args.Reach());
  }

  lemma StillDue(h: Hist, p: nat, s: Server, term: nat)
    requires HistOk(h) && ServerOk(h, p, s) && term >= s.currentTerm
    ensures s.due ==> 1 <= term && Ballot(p, term) !in h.ran
  {
    if term > s.currentTerm { Unreached(h, p, term); }
  }

  lemma AcceptedServer(h: Hist, h': Hist, p: nat, s: Server, src: nat, args: AppendArgs)
    requires HistOk(h) && HistOk(h') && ServerOk(h, p, s) && AppendArgsOk(h, src, args) && src != p && Accepts(s, args)
    requires Grows(h, h', p) && h'.terms[p] == args.term && SameVotes(h, h') && h'.reigns == h.reigns
    ensures ServerOk(h', p, AppendEntries(s, args).0)
  {
    hide LogOk, HistOk, VotesGrow, ReignsGrow, AcksGrow;
    AcceptedLog(h, h', p, s, src, args);
    StillDue(h, p, s, args.term);
  }

  lemma MismatchServer(h: Hist, h': Hist, p: nat, s: Server, src: nat, args: AppendArgs)
    requires HistOk(h) && HistOk(h') && ServerOk(h, p, s) && AppendArgsOk(h, src, args) && src != p
    requires args.term >= s.currentTerm && !Accepts(s, args)
    requires Grows(h, h', p) && h'.terms[p] == args.term && SameVotes(h, h') && h'.reigns == h.reigns
    ensures ServerOk(h', p, AppendEntries(s, args).0)
  {
    LogStays(h, h', p, s.logs);
    StillDue(h, p, s, args.term);
  }

  lemma AppendServer(h: Hist, h': Hist, p: nat, s: Server, src: nat, args: AppendArgs)
    requires HistOk(h) && HistOk(h') && ServerOk(h, p, s) && AppendArgsOk(h, src, args) && src != p
    requires Grows(h, h', p) && SameVotes(h, h') && h'.reigns == h.reigns
    requires h'.terms[p] == AppendEntries(s, args).0.currentTerm
    ensures ServerOk(h', p, AppendEntries(s, args).0)
  {
    if args.term < s.currentTerm {
      PersistOk(h, p, s);
      SameTermOk(h, h', p, Persist(s));
    } else if Accepts(s, args) {
      AcceptedServer(h, h', p, s, src, args);
    } else {
      MismatchServer(h, h', p, s, src, args);
    }
  }

  lemma AppendGrows(h: Hist, h': Hist, p: nat, s: Server, src: nat, args: AppendArgs)
    requires HistOk(h) && ServerOk(h, p, s) && AppendArgsOk(h, src, args) && src != p
    requires SameVotes(h, h') && h'.reigns == h.reigns
    requires h'.terms == h.terms[p := AppendEntries(s, args).0.currentTerm]
    requires h'.acked == if Accepts(s, args)
                         then h.acked[Ballot(p, args.term) := Max(Get(h.acked, Ballot(p, args.term)), args.Reach())]
                         else h.acked
    ensures Grows(h, h', p) && HistOk(h')
  {
    hide LogOk, ReignOk, VoteOk, RanOk, VotedForOk, CandidateOk, LeaderOk, DiskOk;
    TermRises(h, h', p, AppendEntries(s, args).0.currentTerm);
    VotesSame(h, h', p);
    ReignsSame(h, h', p);
    var b := Ballot(p, args.term);
    if Accepts(s, args) {
      assert AcksGrow(h, h', p);
      assert b in h.acked ==> AckedOk(h, b);
      assert AckedOk(h', b);
    } else {
      AcksSame(h, h', p);
    }
    HistStays(h, h', p);
  }

  /** A call that moves on keeps its place and its message. */
  lemma CallMoves(h: Hist, appends: seq<AppendCall>, id: nat, call: AppendCall)
    requires AppendsOk(h, appends) && Growing(appends)
    requires id < |appends| && call.args == appends[id].args && AppendCallOk(h, call)
    ensures AppendsOk(h, appends[id := call]) && Growing(appends[id := call])
  {
  }

  lemma AcceptedAck(h: Hist, h': Hist, p: nat, s: Server, args: AppendArgs)
    requires h'.acked == if Accepts(s, args)
                         then h.acked[Ballot(p, args.term) := Max(Get(h.acked, Ballot(p, args.term)), args.Reach())]
                         else h.acked
    ensures AppendEntries(s, args).1.success ==> args.Reach() <= Get(h'.acked, Ballot(p, args.term))
  {
  }

  lemma AppendEntriesKeeps(c: State, h: Hist, id: nat)
    requires Inv(c, h) && Enabled(c, StepAppendEntries(id))
    ensures Keeps(c, h, StepAppendEntries(id))
  {
    hide HistOk, LogOk, VotesOk, Grows, VotedForOk;
    var step := StepAppendEntries(id);
    var call := c.appends[id];
    var p, s := call.dst, c.servers[call.dst];
    assert ServerOk(h, p, s) && AppendCallOk(h, call);
    AppendRange(h, s, call.src, call.args);
    var h' := Record(c, h, step);
    AppendGrows(h, h', p, s, call.src, call.args);
    AppendServer(h, h', p, s, call.src, call.args);
    VotesStay(c, h, h', p);
    AppendsStay(c, h, h', p);
    AcceptedAck(h, h', p, s, call.args);
    CallMoves(h', c.appends, id, AppendsAfter(c, step)[id]);
    Gather(c, h, step);
  }

  // ---- the reply at the leader ----

  lemma ReplyServer(h: Hist, p: nat, s: Server, call: AppendCall)
    requires HistOk(h) && ServerOk(h, p, s) && AppendCallOk(h, call) && call.src == p && call.status.AppendReplied?
    requires SeeTerm(s, call.status.reply.term) == s
    ensures AppendReplyInRange(s, |h.terms|, call.dst)
    ensures ServerOk(h, p, HandleAppendReply(s, p, |h.terms|, call.dst, call.args, call.status.reply))
  {
    hide LogOk, ReignOk, VoteOk, RanOk, Majority, CommitScan;
    assert AppendReplyInRange(s, |h.terms|, call.dst);
    if Advances(s, call.args, call.status.reply) {
      var s2 := Matched(s, call.dst, call.args, call.status.reply);
      CommitScanRange(s2, p, s2.commitIndex, s2.commitIndex);
    }
  }

  lemma ReplyAfter(h: Hist, h': Hist, p: nat, s: Server, call: AppendCall)
    requires HistOk(h) && HistOk(h') && ServerOk(h, p, s) && AppendCallOk(h, call)
    requires call.src == p && call.status.AppendReplied? && AppendReplyInRange(s, |h.terms|, call.dst)
    requires Grows(h, h', p) && SameVotes(h, h') && h'.reigns == h.reigns && h'.acked == h.acked
    requires h'.terms[p] == SeeTerm(s, call.status.reply.term).currentTerm
    ensures ServerOk(h', p, HandleAppendReply(s, p, |h.terms|, call.dst, call.args, call.status.reply))
  {
    var reply := call.status.reply;
    if reply.term > s.currentTerm {
      SeeTermOk(h, h', p, s, reply.term);
      assert HandleAppendReply(s, p, |h.terms|, call.dst, call.args, reply) == SeeTerm(s, reply.term);
    } else {
      ReplyServer(h, p, s, call);
      SameTermOk(h, h', p, HandleAppendReply(s, p, |h.terms|, call.dst, call.args, reply));
    }
  }

  lemma ReplyTerm(s: Server, me: nat, n: nat, peer: nat, args: AppendArgs, reply: AppendReply)
    requires AppendReplyInRange(s, n, peer)
    ensures HandleAppendReply(s, me, n, peer, args, reply).currentTerm == SeeTerm(s, reply.term).currentTerm
  {
  }

  lemma AppendReplyKeeps(c: State, h: Hist, id: nat)
    requires Inv(c, h) && Enabled(c, StepAppendReply(id))
    ensures Keeps(c, h, StepAppendReply(id))
  {
    hide LogOk, VotesOk, VotedForOk, CandidateOk, DiskOk, ReignOk, VoteOk, RanOk, AckedOk;
    var step := StepAppendReply(id);
    var call := c.appends[id];
    var p, s := call.src, c.servers[call.src];
    assert ServerOk(h, p, s) && AppendCallOk(h, call);
    assert AppendReplyInRange(s, |c.servers|, call.dst);
    var h' := Record(c, h, step);
    ReplyTerm(s, p, |c.servers|, call.dst, call.args, call.status.reply);
    TermRises(h, h', p, SeeTerm(s, call.status.reply.term).currentTerm);
    VotesSame(h, h', p);
    ReignsSame(h, h', p);
    AcksSame(h, h', p);
    HistStays(h, h', p);
    ReplyAfter(h, h', p, s, call);
    VotesStay(c, h, h', p);
    AppendsStay(c, h, h', p);
    CallMoves(h', c.appends, id, AppendsAfter(c, step)[id]);
    Gather(c, h, step);
  }

  // ---- all steps ----

  /** Every enabled step of a good state is in range and leads to a good state. */
  lemma StepKeeps(c: State, h: Hist, step: Step)
    requires Inv(c, h) && Enabled(c, step)
    ensures Keeps(c, h, step)
  {
    match step
    case StepTimeout(p) => TimeoutKeeps(c, h, p);
    case StepLaunch(p) => LaunchKeeps(c, h, p);
    case StepRequestVote(key) => RequestVoteKeeps(c, h, key);
    case StepVoteReply(key) => VoteReplyKeeps(c, h, key);
    case StepStart(p, command) => StartKeeps(c, h, p, command);
    case StepBuild(p, peer) => BuildKeeps(c, h, p, peer);
    case StepAppendEntries(id) => AppendEntriesKeeps(c, h, id);
    case StepAppendReply(id) => AppendReplyKeeps(c, h, id);
    case StepCrash(p) => CrashKeeps(c, h, p);
  }
}
