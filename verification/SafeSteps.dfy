/** Every step that loses nothing keeps the safety invariants. */
module SafeSteps {
  import opened RaftTypes
  import opened RaftServer
  import opened Cluster
  import opened History
  import opened Quorums
  import opened Invariants
  import opened Growth
  import opened Steps
  import opened LogSteps
  import opened Safety
  import opened CommitRule

  ghost predicate SafeKeeps(c: State, h: Hist, step: Step)
    requires Enabled(c, step) && InRange(c, step) && |h.terms| == |c.servers|
  {
    && h.committed <= Record(c, h, step).committed
    && SafeInv(Apply(c, step), Record(c, h, step))
  }

  lemma ServersStaySafe(c: State, h: Hist, h': Hist, p: nat, s': Server)
    requires SafeInv(c, h) && Grows(h, h', p) && SafeServer(h', p, s') && h.committed <= h'.committed
    ensures SafeServers(h', c.servers[p := s'])
  {
    var servers' := c.servers[p := s'];
    forall q | 0 <= q < |servers'|
      ensures SafeServer(h', q, servers'[q])
    {
      if q != p {
        OtherServerSafe(h, h', p, q, c.servers[q]);
      }
    }
  }

  lemma CallStaysSafe(h: Hist, h': Hist, p: nat, args: AppendArgs)
    requires Grows(h, h', p) && h.committed <= h'.committed && SafeCall(h, args)
    ensures SafeCall(h', args)
  {
    assert SameReign(h.reigns[args.term], h'.reigns[args.term]);
  }

  /** Calls keep their messages, so they stay safe; a new call is looked at on its own. */
  lemma CallsStaySafe(c: State, h: Hist, h': Hist, p: nat, step: Step)
    requires SafeInv(c, h) && Enabled(c, step) && InRange(c, step)
    requires Grows(h, h', p) && h.committed <= h'.committed
    requires step.StepBuild? ==> SafeCall(h', BuildArgs(c.servers[step.p], step.p, step.peer))
    ensures SafeCalls(h', AppendsAfter(c, step))
  {
    hide Inv, SafeHist, SafeServers, SafeCall, Grows;
    var appends' := AppendsAfter(c, step);
    forall id | 0 <= id < |appends'|
      ensures SafeCall(h', appends'[id].args)
    {
      if id < |c.appends| {
        CallStaysSafe(h, h', p, c.appends[id].args);
      }
    }
  }

  /** The pieces of the safety invariant, put together again. */
  lemma SafeGather(c: State, h: Hist, step: Step)
    requires SafeInv(c, h) && Keeps(c, h, step)
    requires
      var h' := Record(c, h, step);
      && h.committed <= h'.committed && SafeHist(h') && SafeServer(h', Actor(c, step), After(c, step))
      && (step.StepBuild? ==> SafeCall(h', BuildArgs(c.servers[step.p], step.p, step.peer)))
    ensures SafeKeeps(c, h, step)
  {
    hide HistOk, VotesOk, AppendsOk, Growing, Grows, SafeCalls, SafeReigns, SafeVotes, CommittedOk, KeepsHeld;
    var h' := Record(c, h, step);
    ServersStaySafe(c, h, h', Actor(c, step), After(c, step));
    CallsStaySafe(c, h, h', Actor(c, step), step);
  }

  lemma ChosenStays(h: Hist, h': Hist, p: nat, t: nat, k: nat)
    requires HistOk(h) && Grows(h, h', p) && Chosen(h, t, k)
    ensures Chosen(h', t, k) && Piece(h', t, k) == Piece(h, t, k)
  {
    hide HistOk;
    assert SameReign(h.reigns[t], h'.reigns[t]);
    var q :| Everywhere(h, q, t, k);
    forall v | v in q
      ensures Ack(h', v, t) >= k
    {
      AckStays(h, h', p, Ballot(v, t));
    }
    assert Everywhere(h', q, t, k);
  }

  lemma ChosenIsHeld(h: Hist, t: nat, k: nat)
    requires Chosen(h, t, k)
    ensures Held(h, t, k)
  {
    var q :| Everywhere(h, q, t, k);
    assert Supports(h, q, t, k);
  }

  lemma CommittedStays(h: Hist, h': Hist, p: nat)
    requires HistOk(h) && Grows(h, h', p) && CommittedOk(h)
    requires h'.committed == h.committed && h'.commitTerm == h.commitTerm
    ensures CommittedOk(h')
  {
    if h.committed != [] {
      ChosenStays(h, h', p, h.commitTerm, |h.committed|);
    }
  }

  /** Old votes stay safe; votes that the step adds are looked at on their own. */
  lemma VotesStaySafe(h: Hist, h': Hist, p: nat)
    requires HistOk(h) && HistOk(h') && Grows(h, h', p) && SafeVotes(h)
    requires h'.ran == h.ran
    requires forall b :: b in h'.firstVote && b !in h.firstVote ==> SafeVote(h', b)
    ensures SafeVotes(h')
  {
    forall b | b in h'.firstVote
      ensures SafeVote(h', b)
    {
      if b in h.firstVote {
        OldVoteSafe(h, h', p, b);
      }
    }
  }

  /** A step that leaves the actor's log, all acknowledgements and the committed log alone. */
  lemma QuietStep(c: State, h: Hist, step: Step)
    requires SafeInv(c, h) && Keeps(c, h, step) && !step.StepBuild?
    requires
      var h', p, s' := Record(c, h, step), Actor(c, step), After(c, step);
      && h'.acked == h.acked && h'.reigns == h.reigns
      && h'.committed == h.committed && h'.commitTerm == h.commitTerm
      && s'.logs == c.servers[p].logs && s'.commitIndex <= c.servers[p].commitIndex
      && SafeVotes(h')
    ensures SafeKeeps(c, h, step)
  {
    hide HistOk, VotesOk, AppendsOk, Growing, Grows, SafeCalls, SafeReigns, SafeVotes, CommittedOk, KeepsHeld;
    var h', p, s' := Record(c, h, step), Actor(c, step), After(c, step);
    ReignsStaySafe(h, h', p);
    CommittedStays(h, h', p);
    assert ServerOk(h', p, Apply(c, step).servers[p]);
    assert SafeServer(h, p, c.servers[p]) && ServerOk(h, p, c.servers[p]);
    ActorSafe(h, h', p, c.servers[p], s');
    SafeGather(c, h, step);
  }

  lemma TimeoutSafe(c: State, h: Hist, p: nat)
    requires SafeInv(c, h) && Enabled(c, StepTimeout(p)) && Keeps(c, h, StepTimeout(p))
    ensures SafeKeeps(c, h, StepTimeout(p))
  {
    hide HistOk, VotesOk, AppendsOk, Growing, Grows, SafeCalls, SafeReigns, SafeVotes, CommittedOk, KeepsHeld;
    var h' := Record(c, h, StepTimeout(p));
    assert ServerOk(h, p, c.servers[p]);
    Unreached(h, p, c.servers[p].currentTerm + 1);
    VotesStaySafe(h, h', p);
    QuietStep(c, h, StepTimeout(p));
  }

  /** A candidate asks for votes with a log that keeps what it holds itself. */
  lemma LaunchVote(h: Hist, h': Hist, p: nat, s: Server, b: Ballot)
    requires HistOk(h) && HistOk(h') && Grows(h, h', p) && SafeVotes(h)
    requires ServerOk(h, p, s) && KeepsHeld(h, p, s.logs) && s.due
    requires h'.firstVote == h.firstVote && h'.reigns == h.reigns && h'.acked == h.acked && h'.terms == h.terms
    requires h'.ran == h.ran[Ballot(p, s.currentTerm) := s.logs]
    requires b in h.firstVote
    ensures SafeVote(h', b)
  {
    var r := Ballot(h.firstVote[b], b.term);
    assert SafeVote(h, b);
    if r == Ballot(p, s.currentTerm) {
      assert VoteOk(h, b);
      assert b.server == p;
      forall t: nat, k: nat | Held(h', t, k) && k <= Ack(h', p, t)
        ensures Piece(h', t, k) <= s.logs
      {
        HeldBefore(h, h', p, t, k);
      }
    } else {
      OldVoteSafe(h, h', p, b);
    }
  }

  lemma LaunchVotesSafe(c: State, h: Hist, p: nat)
    requires SafeInv(c, h) && Enabled(c, StepLaunch(p)) && Keeps(c, h, StepLaunch(p))
    ensures SafeVotes(Record(c, h, StepLaunch(p)))
  {
    hide HistOk, VotesOk, AppendsOk, Growing, Grows, SafeCalls, SafeReigns, CommittedOk, KeepsHeld;
    var h', s := Record(c, h, StepLaunch(p)), c.servers[p];
    assert ServerOk(h, p, s) && SafeServer(h, p, s);
    assert h'.terms == h.terms;
    forall b | b in h'.firstVote
      ensures SafeVote(h', b)
    {
      LaunchVote(h, h', p, s, b);
    }
  }

  lemma LaunchSafe(c: State, h: Hist, p: nat)
    requires SafeInv(c, h) && Enabled(c, StepLaunch(p)) && Keeps(c, h, StepLaunch(p))
    ensures SafeKeeps(c, h, StepLaunch(p))
  {
    hide HistOk, VotesOk, AppendsOk, Growing, Grows, SafeCalls, SafeReigns, SafeVotes, CommittedOk, KeepsHeld;
    LaunchVotesSafe(c, h, p);
    QuietStep(c, h, StepLaunch(p));
  }

  lemma CrashSafe(c: State, h: Hist, p: nat)
    requires SafeInv(c, h) && Enabled(c, StepCrash(p)) && Keeps(c, h, StepCrash(p))
    ensures SafeKeeps(c, h, StepCrash(p))
  {
    hide HistOk, VotesOk, AppendsOk, Growing, Grows, SafeCalls, SafeReigns, SafeVotes, CommittedOk, KeepsHeld;
    assert ServerOk(h, p, c.servers[p]);
    VotesStaySafe(h, Record(c, h, StepCrash(p)), p);
    QuietStep(c, h, StepCrash(p));
  }

  lemma GrantedVote(h: Hist, h': Hist, q: nat, s: Server, args: VoteArgs, b: Ballot, r: Ballot)
    requires HistOk(h) && Grows(h, h', q) && SafeReigns(h) && h'.reigns == h.reigns
    requires ServerOk(h, q, s) && KeepsHeld(h, q, s.logs) && UpToDate(s.logs, args)
    requires b in h'.firstVote && b.server == q && r == Ballot(h'.firstVote[b], b.term)
    requires r in h.ran && args.lastLogIndex == |h.ran[r]| && args.lastLogTerm == LastTerm(h.ran[r])
    requires h'.acked == h.acked && h'.ran == h.ran
    ensures SafeVote(h', b)
  {
    assert RanOk(h, r);
    forall t: nat, k: nat | t < b.term && Held(h', t, k) && k <= Ack(h', q, t)
      ensures Piece(h', t, k) <= h'.ran[r]
    {
      HeldBefore(h, h', q, t, k);
      RestrictionKeeps(h, q, s, args, h.ran[r], t, k);
    }
  }

  lemma GrantSafe(c: State, h: Hist, key: VoteKey, b: Ballot)
    requires SafeInv(c, h) && Enabled(c, StepRequestVote(key)) && Keeps(c, h, StepRequestVote(key))
    requires b in Record(c, h, StepRequestVote(key)).firstVote && b !in h.firstVote
    ensures SafeVote(Record(c, h, StepRequestVote(key)), b)
  {
    hide HistOk, Grows, SafeReigns, SafeVotes, SafeVote, SafeCalls, AppendsOk, Growing, CommittedOk, KeepsHeld, LogOk;
    var h', q, s := Record(c, h, StepRequestVote(key)), key.dst, c.servers[key.dst];
    assert ServerOk(h, q, s) && SafeServer(h, q, s) && VoteCallOk(h, key, c.votes[key]);
    GrantedVote(h, h', q, s, c.votes[key].args, b, Ballot(key.src, key.term));
  }

  lemma RequestVotesSafe(c: State, h: Hist, key: VoteKey)
    requires SafeInv(c, h) && Enabled(c, StepRequestVote(key)) && Keeps(c, h, StepRequestVote(key))
    ensures SafeVotes(Record(c, h, StepRequestVote(key)))
  {
    hide HistOk, VotesOk, AppendsOk, Growing, Grows, SafeCalls, SafeReigns, SafeVotes, CommittedOk, KeepsHeld;
    var h' := Record(c, h, StepRequestVote(key));
    forall b | b in h'.firstVote && b !in h.firstVote
      ensures SafeVote(h', b)
    {
      GrantSafe(c, h, key, b);
    }
    VotesStaySafe(h, h', key.dst);
  }

  lemma RequestVoteSafe(c: State, h: Hist, key: VoteKey)
    requires SafeInv(c, h) && Enabled(c, StepRequestVote(key)) && Keeps(c, h, StepRequestVote(key))
    ensures SafeKeeps(c, h, StepRequestVote(key))
  {
    hide HistOk, VotesOk, AppendsOk, Growing, Grows, SafeCalls, SafeReigns, SafeVotes, CommittedOk, KeepsHeld;
    RequestVotesSafe(c, h, key);
    QuietStep(c, h, StepRequestVote(key));
  }

  /** The new leader holds its whole log, but none of it is its own yet. */
  lemma ElectedSafe(h: Hist, h': Hist, p: nat, s: Server, s': Server)
    requires HistOk(h) && HistOk(h') && Grows(h, h', p) && ServerOk(h, p, s) && SafeServer(h, p, s)
    requires h'.acked == h.acked && s.currentTerm !in h.reigns && s.currentTerm in h'.reigns
    requires s'.logs == s.logs && s'.commitIndex == s.commitIndex && s'.currentTerm == s.currentTerm
    requires h'.terms == h.terms && h'.committed == h.committed
    ensures SafeServer(h', p, s')
  {
    forall t: nat, k: nat | Held(h', t, k) && k <= Ack(h', p, t)
      ensures Piece(h', t, k) <= s'.logs
    {
      assert t in h.reigns;
      assert SameReign(h.reigns[t], h'.reigns[t]);
      AckBound(h, p, t);
      HeldBefore(h, h', p, t, k);
    }
    assert Ballot(p, s.currentTerm) in h.acked ==> AckedOk(h, Ballot(p, s.currentTerm));
  }

  lemma ElectionSafe(c: State, h: Hist, key: VoteKey)
    requires SafeInv(c, h) && Enabled(c, StepVoteReply(key)) && Keeps(c, h, StepVoteReply(key))
    requires Counts(c.servers[key.src], c.votes[key].args, c.votes[key].status.reply)
    requires After(c, StepVoteReply(key)).role == Leader
    ensures SafeHist(Record(c, h, StepVoteReply(key)))
    ensures SafeServer(Record(c, h, StepVoteReply(key)), key.src, After(c, StepVoteReply(key)))
  {
    var step := StepVoteReply(key);
    var h', p, s, s' := Record(c, h, step), key.src, c.servers[key.src], After(c, step);
    assert ServerOk(h, p, s) && VoteCallOk(h, key, c.votes[key]) && SafeServer(h, p, s);
    CountedVote(h, p, s, key, c.votes[key]);
    ElectionRecord(c, h, key);
    SecondMajority(h, p, s.currentTerm, h'.reigns[s.currentTerm].voters);
    VotesStaySafe(h, h', p);
    ReignsStaySafe(h, h', p);
    CommittedStays(h, h', p);
    ElectedSafe(h, h', p, s, s');
  }

  lemma VoteReplySafe(c: State, h: Hist, key: VoteKey)
    requires SafeInv(c, h) && Enabled(c, StepVoteReply(key)) && Keeps(c, h, StepVoteReply(key))
    ensures SafeKeeps(c, h, StepVoteReply(key))
  {
    hide HistOk, VotesOk, AppendsOk, Growing, Grows, SafeCalls, SafeReigns, SafeVotes, CommittedOk, KeepsHeld;
    var step := StepVoteReply(key);
    var h', p, s' := Record(c, h, step), key.src, After(c, step);
    if Counts(c.servers[p], c.votes[key].args, c.votes[key].status.reply) && s'.role == Leader {
      ElectionSafe(c, h, key);
      SafeGather(c, h, step);
    } else {
      VotesStaySafe(h, h', p);
      QuietStep(c, h, step);
    }
  }

  // ---- replication ----

  /** A leader has nothing to acknowledge to itself. */
  lemma NoOwnAck(h: Hist, p: nat, t: nat)
    requires HistOk(h) && t in h.reigns && h.reigns[t].leader == p
    ensures Ballot(p, t) !in h.acked
  {
    assert Ballot(p, t) in h.acked ==> AckedOk(h, Ballot(p, t));
  }

  lemma StartKeepsHeld(h: Hist, h': Hist, p: nat, s: Server, log: Log)
    requires HistOk(h) && Grows(h, h', p) && s.role == Leader && ServerOk(h, p, s) && KeepsHeld(h, p, s.logs)
    requires s.logs <= log && s.currentTerm in h'.reigns && log == h'.reigns[s.currentTerm].log
    requires h'.acked == h.acked && h'.reigns.Keys == h.reigns.Keys
    ensures KeepsHeld(h', p, log)
  {
    hide HistOk, LogOk, VotedForOk, CandidateOk, DiskOk;
    forall t: nat, k: nat | Held(h', t, k) && k <= Ack(h', p, t)
      ensures Piece(h', t, k) <= log
    {
      if t != s.currentTerm {
        assert SameReign(h.reigns[t], h'.reigns[t]);
        AckBound(h, p, t);
        HeldBefore(h, h', p, t, k);
      }
    }
  }

  lemma StartHistSafe(c: State, h: Hist, p: nat, command: Command)
    requires SafeInv(c, h) && Enabled(c, StepStart(p, command)) && Keeps(c, h, StepStart(p, command))
    ensures SafeHist(Record(c, h, StepStart(p, command)))
  {
    hide HistOk, VotesOk, AppendsOk, Growing, Grows, SafeCalls, SafeReigns, SafeVotes, CommittedOk, KeepsHeld;
    var h' := Record(c, h, StepStart(p, command));
    VotesStaySafe(h, h', p);
    ReignsStaySafe(h, h', p);
    CommittedStays(h, h', p);
  }

  lemma StartSafe(c: State, h: Hist, p: nat, command: Command)
    requires SafeInv(c, h) && Enabled(c, StepStart(p, command)) && Keeps(c, h, StepStart(p, command))
    ensures SafeKeeps(c, h, StepStart(p, command))
  {
    hide HistOk, VotesOk, AppendsOk, Growing, Grows, SafeCalls, SafeReigns, SafeVotes, CommittedOk, KeepsHeld;
    var step := StepStart(p, command);
    var h', s, s' := Record(c, h, step), c.servers[p], After(c, step);
    StartHistSafe(c, h, p, command);
    if s.role == Leader {
      assert ServerOk(h, p, s) && SafeServer(h, p, s);
      StartKeepsHeld(h, h', p, s, s'.logs);
      NoOwnAck(h, p, s.currentTerm);
      SafeGather(c, h, step);
    } else {
      QuietStep(c, h, step);
    }
  }

  lemma BuildSafe(c: State, h: Hist, p: nat, peer: nat)
    requires SafeInv(c, h) && Enabled(c, StepBuild(p, peer)) && Keeps(c, h, StepBuild(p, peer))
    ensures SafeKeeps(c, h, StepBuild(p, peer))
  {
    hide HistOk, VotesOk, AppendsOk, Growing, Grows, SafeCalls, SafeReigns, SafeVotes, CommittedOk, KeepsHeld;
    var step := StepBuild(p, peer);
    var h', s, s' := Record(c, h, step), c.servers[p], After(c, step);
    assert ServerOk(h, p, s) && SafeServer(h, p, s);
    assert h'.terms == h.terms;
    assert h' == h;
    assert SafeServer(h', p, s');
    SafeGather(c, h, step);
  }

  /** The follower takes over the leader's log: it has what may be held of every earlier term because
      the leader started with it, and of this term because nothing is lost. */
  lemma AcceptedKeepsHeld(h: Hist, p: nat, t': nat, reach: nat)
    requires HistOk(h) && SafeReigns(h) && p < |h.terms| && t' in h.reigns && h.reigns[t'].leader != p
    requires h.terms[p] == t' && |h.reigns[t'].start| <= reach <= |h.reigns[t'].log|
    requires Get(h.acked, Ballot(p, t')) <= reach
    ensures KeepsHeld(h, p, h.reigns[t'].log[..reach])
  {
    assert ReignOk(h, t');
    var log := h.reigns[t'].log[..reach];
    forall t: nat, k: nat | Held(h, t, k) && k <= Ack(h, p, t)
      ensures Piece(h, t, k) <= log
    {
      if t < t' {
        assert Piece(h, t, k) <= h.reigns[t'].start;
      } else if t > t' {
        Unreached(h, p, t);
      }
    }
  }

  lemma AcceptedSafe(h: Hist, h': Hist, p: nat, s: Server, src: nat, args: AppendArgs)
    requires HistOk(h) && HistOk(h') && SafeReigns(h') && SafeCall(h, args)
    requires ServerOk(h, p, s) && AppendArgsOk(h, src, args) && src != p && Accepts(s, args)
    requires Get(h.acked, Ballot(p, args.term)) <= args.Reach()
    requires h'.acked == h.acked[Ballot(p, args.term) := args.Reach()]
    requires h'.terms == h.terms[p := args.term]
    requires h'.reigns == h.reigns && h'.committed == h.committed
    ensures SafeServer(h', p, AppendEntries(s, args).0)
  {
    hide HistOk, LogOk, SafeReigns, KeepsHeld;
    AcceptCopies(h, p, s, src, args);
    AcceptedKeepsHeld(h', p, args.term, args.Reach());
    var log := h.reigns[args.term].log;
    assert log[..args.Reach()][..args.leaderCommit] == log[..args.leaderCommit];
  }

  lemma MismatchSafe(c: State, h: Hist, id: nat)
    requires SafeInv(c, h) && Enabled(c, StepAppendEntries(id)) && Keeps(c, h, StepAppendEntries(id))
    requires !AcceptedIn(c, StepAppendEntries(id))
    ensures SafeKeeps(c, h, StepAppendEntries(id))
  {
    hide HistOk, VotesOk, AppendsOk, Growing, Grows, SafeCalls, SafeReigns, SafeVotes, CommittedOk, KeepsHeld;
    VotesStaySafe(h, Record(c, h, StepAppendEntries(id)), c.appends[id].dst);
    QuietStep(c, h, StepAppendEntries(id));
  }

  lemma AcceptedHistSafe(c: State, h: Hist, id: nat)
    requires SafeInv(c, h) && Enabled(c, StepAppendEntries(id)) && Keeps(c, h, StepAppendEntries(id))
    ensures SafeHist(Record(c, h, StepAppendEntries(id)))
  {
    hide HistOk, VotesOk, AppendsOk, Growing, Grows, SafeCalls, SafeReigns, SafeVotes, CommittedOk, KeepsHeld;
    var h', p := Record(c, h, StepAppendEntries(id)), c.appends[id].dst;
    VotesStaySafe(h, h', p);
    ReignsStaySafe(h, h', p);
    CommittedStays(h, h', p);
  }

  lemma AcceptSafe(c: State, h: Hist, id: nat)
    requires SafeInv(c, h) && Enabled(c, StepAppendEntries(id)) && Keeps(c, h, StepAppendEntries(id))
    requires NoLoss(c, h, StepAppendEntries(id)) && AcceptedIn(c, StepAppendEntries(id))
    ensures SafeKeeps(c, h, StepAppendEntries(id))
  {
    hide HistOk, VotesOk, Growing, Grows, SafeReigns, SafeVotes, CommittedOk, KeepsHeld;
    var step, call := StepAppendEntries(id), c.appends[id];
    var p, s := call.dst, c.servers[call.dst];
    AcceptedHistSafe(c, h, id);
    assert ServerOk(h, p, s) && AppendCallOk(h, call) && SafeCall(h, call.args);
    AcceptedSafe(h, Record(c, h, step), p, s, call.src, call.args);
    SafeGather(c, h, step);
  }

  // ---- commitment ----

  /** Whatever a leader's commit loop reaches is held by a majority. */
  lemma CommitChoses(h: Hist, p: nat, s: Server, k: nat)
    requires HistOk(h) && ServerOk(h, p, s) && s.role == Leader
    requires 1 <= k <= |s.logs| && s.logs[k - 1].term >= s.currentTerm && Majority(s.matchIndex, p, k - 1)
    ensures Chosen(h, s.currentTerm, k)
  {
    var t := s.currentTerm;
    assert ReignOk(h, t);
    var q := Matching(s.matchIndex, p, k - 1, 0) + {p};
    assert q <= Below(|h.terms|);
    forall v | v in q
      ensures Ack(h, v, t) >= k
    {
      if v != p {
        assert s.matchIndex[v] <= Get(h.acked, Ballot(v, t));
      }
    }
    assert Everywhere(h, q, t, k);
  }

  lemma EarlierIsShorter(h: Hist, t: nat, k: nat, t': nat, k': nat)
    requires SafeReigns(h) && HistOk(h) && Held(h, t, k) && Own(h, t', k') && t < t'
    ensures k < k' && Piece(h, t, k) <= Piece(h, t', k')
  {
    assert ReignOk(h, t');
    assert Piece(h, t, k) <= h.reigns[t'].start;
  }

  /** Committed logs are prefixes of one another. */
  lemma ChosenCompare(h: Hist, t: nat, k: nat, t': nat, k': nat)
    requires HistOk(h) && SafeReigns(h) && Chosen(h, t, k) && Chosen(h, t', k') && k <= k'
    ensures Piece(h, t, k) <= Piece(h, t', k')
  {
    ChosenIsHeld(h, t, k);
    ChosenIsHeld(h, t', k');
    if t < t' {
      EarlierIsShorter(h, t, k, t', k');
    } else if t > t' {
      EarlierIsShorter(h, t', k', t, k);
    }
  }

  /** A leader's commit step extends the committed log, or stays inside it. */
  lemma CommitExtends(h: Hist, p: nat, s: Server, k: nat)
    requires HistOk(h) && SafeReigns(h) && CommittedOk(h) && ServerOk(h, p, s) && s.role == Leader
    requires k <= |s.logs| && Chosen(h, s.currentTerm, k)
    ensures s.logs[..k] == Piece(h, s.currentTerm, k)
    ensures |h.committed| <= k ==> h.committed <= s.logs[..k]
    ensures k <= |h.committed| ==> s.logs[..k] <= h.committed
  {
    if h.committed != [] {
      if |h.committed| <= k {
        ChosenCompare(h, h.commitTerm, |h.committed|, s.currentTerm, k);
      }
      if k <= |h.committed| {
        ChosenCompare(h, s.currentTerm, k, h.commitTerm, |h.committed|);
      }
    }
  }

  /** What the leader's server looks like after the reply, and what the history makes of it. */
  lemma CommitStep(h: Hist, h': Hist, p: nat, s: Server, s': Server)
    requires HistOk(h) && HistOk(h') && Grows(h, h', p) && SafeHist(h) && SafeReigns(h')
    requires ServerOk(h, p, s) && ServerOk(h', p, s') && SafeServer(h, p, s) && s.role == Leader
    requires s'.logs == s.logs && s.currentTerm == s'.currentTerm
    requires s.commitIndex < s'.commitIndex <= |s.logs| && Chosen(h', s.currentTerm, s'.commitIndex)
    requires h'.terms == h.terms && h'.acked == h.acked && h'.reigns == h.reigns && CommittedOk(h)
    requires h'.committed == if s'.commitIndex > |h.committed| then s.logs[..s'.commitIndex] else h.committed
    requires h'.commitTerm == if s'.commitIndex > |h.committed| then s.currentTerm else h.commitTerm
    ensures h.committed <= h'.committed && CommittedOk(h') && SafeServer(h', p, s')
  {
    hide HistOk, SafeReigns, SafeVotes, KeepsHeld, KeepsAcked, LogOk;
    assert Chosen(h, s.currentTerm, s'.commitIndex) by {
      var q :| Everywhere(h', q, s.currentTerm, s'.commitIndex);
      assert Everywhere(h, q, s.currentTerm, s'.commitIndex);
    }
    CommitExtends(h, p, s, s'.commitIndex);
    if s'.commitIndex <= |h.committed| {
      CommittedStays(h, h', p);
    }
    ActorSafe(h, h', p, s, s');
  }

  lemma CommitSafe(c: State, h: Hist, id: nat)
    requires SafeInv(c, h) && Enabled(c, StepAppendReply(id)) && Keeps(c, h, StepAppendReply(id))
    requires After(c, StepAppendReply(id)).commitIndex != c.servers[c.appends[id].src].commitIndex
    ensures SafeKeeps(c, h, StepAppendReply(id))
  {
    CommitAt(c, h, id);
    var step := StepAppendReply(id);
    var h', p, s, s' := Record(c, h, step), c.appends[id].src, c.servers[c.appends[id].src], After(c, step);
    hide HistOk, VotesOk, AppendsOk, Growing, Grows, SafeCalls, SafeReigns;
    hide SafeVotes, CommittedOk, SafeServer, ServerOk;
    hide Record, After, Chosen, AppendsAfter, VotesAfter;
    assert ServerOk(h, p, s) && SafeServer(h, p, s);
    assert ServerOk(h', p, Apply(c, step).servers[p]);
    VotesStaySafe(h, h', p);
    ReignsStaySafe(h, h', p);
    CommitStep(h, h', p, s, s');
    SafeGather(c, h, step);
  }

  /** What a commit changes in the leader and in the history. */
  lemma CommitAt(c: State, h: Hist, id: nat)
    requires SafeInv(c, h) && Enabled(c, StepAppendReply(id)) && Keeps(c, h, StepAppendReply(id))
    requires After(c, StepAppendReply(id)).commitIndex != c.servers[c.appends[id].src].commitIndex
    ensures
      var h', p := Record(c, h, StepAppendReply(id)), c.appends[id].src;
      var s, s' := c.servers[p], After(c, StepAppendReply(id));
      && s.role == Leader && s'.logs == s.logs && s'.currentTerm == s.currentTerm
      && s.commitIndex < s'.commitIndex <= |s.logs| && Chosen(h', s.currentTerm, s'.commitIndex)
      && h'.terms == h.terms && h'.acked == h.acked && h'.reigns == h.reigns
      && h'.firstVote == h.firstVote && h'.ran == h.ran
      && h'.committed == (if s'.commitIndex > |h.committed| then s.logs[..s'.commitIndex] else h.committed)
      && h'.commitTerm == if s'.commitIndex > |h.committed| then s.currentTerm else h.commitTerm
  {
    hide HistOk, VotesOk, AppendsOk, Growing, Grows, SafeHist, SafeServers, SafeCalls, LogOk, VotedForOk, CandidateOk;
    var step, call := StepAppendReply(id), c.appends[id];
    var h', p, s, s' := Record(c, h, step), call.src, c.servers[call.src], After(c, step);
    assert ServerOk(h, p, s);
    assert ServerOk(h', p, Apply(c, step).servers[p]);
    var s2 := Matched(s, call.dst, call.args, call.status.reply);
    CommitScanMeets(s2, p, s2.commitIndex, s2.commitIndex);
    hide Chosen;
    CommitChoses(h', p, s', s'.commitIndex);
    assert h'.terms == h.terms;
  }

  lemma AppendReplySafe(c: State, h: Hist, id: nat)
    requires SafeInv(c, h) && Enabled(c, StepAppendReply(id)) && Keeps(c, h, StepAppendReply(id))
    ensures SafeKeeps(c, h, StepAppendReply(id))
  {
    hide HistOk, VotesOk, AppendsOk, Growing, Grows, SafeCalls, SafeReigns, SafeVotes, CommittedOk, KeepsHeld;
    if After(c, StepAppendReply(id)).commitIndex != c.servers[c.appends[id].src].commitIndex {
      CommitSafe(c, h, id);
    } else {
      VotesStaySafe(h, Record(c, h, StepAppendReply(id)), c.appends[id].src);
      QuietStep(c, h, StepAppendReply(id));
    }
  }

  /** Every step that loses nothing keeps the safety invariants and only extends the committed log. */
  lemma StepSafe(c: State, h: Hist, step: Step)
    requires SafeInv(c, h) && Enabled(c, step) && NoLoss(c, h, step)
    ensures Keeps(c, h, step) && SafeKeeps(c, h, step)
  {
    hide HistOk, VotesOk, AppendsOk, Growing, Grows, SafeCalls, SafeReigns, SafeVotes, CommittedOk, KeepsHeld;
    StepKeeps(c, h, step);
    match step
    case StepTimeout(p) => TimeoutSafe(c, h, p);
    case StepLaunch(p) => LaunchSafe(c, h, p);
    case StepRequestVote(key) => RequestVoteSafe(c, h, key);
    case StepVoteReply(key) => VoteReplySafe(c, h, key);
    case StepStart(p, command) => StartSafe(c, h, p, command);
    case StepBuild(p, peer) => BuildSafe(c, h, p, peer);
    case StepAppendEntries(id) =>
      if AcceptedIn(c, step) { AcceptSafe(c, h, id); } else { MismatchSafe(c, h, id); }
    case StepAppendReply(id) => AppendReplySafe(c, h, id);
    case StepCrash(p) => CrashSafe(c, h, p);
  }
}
