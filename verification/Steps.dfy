/** Every step of the cluster keeps the invariants and stays in range. */
module Steps {
  import opened RaftTypes
  import opened RaftServer
  import opened Cluster
  import opened History
  import opened Quorums
  import opened Invariants
  import opened Growth

  ghost predicate Keeps(c: State, h: Hist, step: Step)
    requires |h.terms| == |c.servers|
  {
    && Enabled(c, step) && InRange(c, step)
    && Grows(h, Record(c, h, step), Actor(c, step))
    && Inv(Apply(c, step), Record(c, h, step))
  }

  /** The pieces of the invariant, put together again. */
  lemma Gather(c: State, h: Hist, step: Step)
    requires Inv(c, h) && Enabled(c, step) && InRange(c, step)
    requires
      var h' := Record(c, h, step);
      && Grows(h, h', Actor(c, step)) && HistOk(h')
      && ServerOk(h', Actor(c, step), After(c, step))
      && VotesOk(h', VotesAfter(c, step))
      && AppendsOk(h', AppendsAfter(c, step)) && Growing(AppendsAfter(c, step))
    ensures Keeps(c, h, step)
  {
    ServersStay(c, h, Record(c, h, step), Actor(c, step), After(c, step));
  }

  /** A server that moves to a higher term as a follower without a vote, keeping its log. */
  lemma NewTermOk(h: Hist, h': Hist, p: nat, s: Server, s': Server)
    requires HistOk(h) && HistOk(h') && Grows(h, h', p) && ServerOk(h, p, s)
    requires h'.firstVote == h.firstVote && h'.ran == h.ran && h'.reigns == h.reigns
    requires s'.currentTerm == h'.terms[p] > s.currentTerm && s'.role == Follower && s'.votedFor == -1
    requires s'.logs == s.logs && s'.commitIndex == s.commitIndex && DiskOk(s')
    ensures ServerOk(h', p, s')
  {
    LogStays(h, h', p, s.logs);
    assert forall b :: b in h.ran ==> RanOk(h, b);
    assert forall b :: b in h.firstVote ==> VoteOk(h, b);
    assert forall t :: t in h.reigns ==> ReignOk(h, t);
  }

  /** Nothing is recorded yet about a term that a server has not reached. */
  lemma Unreached(h: Hist, p: nat, t: nat)
    requires HistOk(h) && p < |h.terms| && h.terms[p] < t
    ensures Ballot(p, t) !in h.firstVote && Ballot(p, t) !in h.ran && Ballot(p, t) !in h.acked
    ensures t in h.reigns ==> h.reigns[t].leader != p
  {
    var b := Ballot(p, t);
    assert b in h.firstVote ==> VoteOk(h, b);
    assert b in h.ran ==> RanOk(h, b);
    assert b in h.acked ==> AckedOk(h, b);
    assert t in h.reigns ==> ReignOk(h, t);
  }

  lemma VoteHist(h: Hist, h': Hist, b: Ballot, candidate: nat)
    requires HistOk(h) && Grows(h, h', b.server)
    requires 1 <= b.term <= h'.terms[b.server]
    requires h'.firstVote == AddVote(h.firstVote, b, candidate) && h'.ran == h.ran
    requires h'.reigns == h.reigns && h'.acked == h.acked
    requires candidate != b.server ==> Ballot(candidate, b.term) in h.ran
    ensures HistOk(h')
  {
    HistStays(h, h', b.server);
  }

  lemma TimeoutServer(h: Hist, h': Hist, p: nat, s: Server)
    requires HistOk(h) && ServerOk(h, p, s)
    requires Grows(h, h', p) && h'.terms[p] == s.currentTerm + 1
    requires h'.firstVote == AddVote(h.firstVote, Ballot(p, s.currentTerm + 1), p)
    requires h'.ran == h.ran && h'.reigns == h.reigns
    ensures ServerOk(h', p, Timeout(s, p))
  {
    Unreached(h, p, s.currentTerm + 1);
    LogStays(h, h', p, s.logs);
    assert CandidateOk(h', p, Timeout(s, p));
  }

  lemma TimeoutKeeps(c: State, h: Hist, p: nat)
    requires Inv(c, h) && Enabled(c, StepTimeout(p))
    ensures Keeps(c, h, StepTimeout(p))
  {
    var step := StepTimeout(p);
    var h' := Record(c, h, step);
    var s := c.servers[p];
    assert ServerOk(h, p, s);
    assert Grows(h, h', p) by {
      TermRises(h, h', p, s.currentTerm + 1);
      VoteAdded(h, h', Ballot(p, s.currentTerm + 1), p);
      ReignsSame(h, h', p);
      AcksSame(h, h', p);
    }
    VoteHist(h, h', Ballot(p, s.currentTerm + 1), p);
    TimeoutServer(h, h', p, s);
    VotesStay(c, h, h', p);
    AppendsStay(c, h, h', p);
    Gather(c, h, step);
  }

  lemma LaunchGrows(h: Hist, h': Hist, p: nat, s: Server)
    requires HistOk(h) && ServerOk(h, p, s) && s.due
    requires h'.terms == h.terms
    requires h'.firstVote == h.firstVote && h'.reigns == h.reigns && h'.acked == h.acked
    requires h'.ran == h.ran[Ballot(p, s.currentTerm) := s.logs]
    requires h'.counted == h.counted[Ballot(p, s.currentTerm) := {p}]
    ensures Grows(h, h', p) && HistOk(h')
  {
    hide HistOk, LogOk, VotedForOk, CandidateOk, LeaderOk, DiskOk;
    TermRises(h, h', p, s.currentTerm);
    ReignsSame(h, h', p);
    AcksSame(h, h', p);
    LaunchVotesGrow(h, h', p, s);
    LaunchHist(h, h', p, s);
  }

  lemma LaunchVotesGrow(h: Hist, h': Hist, p: nat, s: Server)
    requires ServerOk(h, p, s) && s.due && h'.firstVote == h.firstVote
    requires h'.ran == h.ran[Ballot(p, s.currentTerm) := s.logs]
    requires h'.counted == h.counted[Ballot(p, s.currentTerm) := {p}]
    ensures VotesGrow(h, h', p)
  {
    hide LogOk, VotedForOk, CandidateOk, LeaderOk, DiskOk;
  }

  lemma LaunchHist(h: Hist, h': Hist, p: nat, s: Server)
    requires HistOk(h) && ServerOk(h, p, s) && Grows(h, h', p)
    requires h'.terms == h.terms
    requires h'.firstVote == h.firstVote && h'.reigns == h.reigns && h'.acked == h.acked
    requires h'.ran == h.ran[Ballot(p, s.currentTerm) := s.logs]
    ensures HistOk(h')
  {
    hide Grows, VotedForOk, CandidateOk, LeaderOk, DiskOk;
    LogStays(h, h', p, s.logs);
    HistStays(h, h', p);
  }

  lemma LaunchServer(h: Hist, h': Hist, p: nat, s: Server)
    requires HistOk(h) && ServerOk(h, p, s) && s.due
    requires Grows(h, h', p) && h'.terms[p] == s.currentTerm
    requires h'.firstVote == h.firstVote && h'.reigns == h.reigns
    requires h'.ran == h.ran[Ballot(p, s.currentTerm) := s.logs]
    requires h'.counted == h.counted[Ballot(p, s.currentTerm) := {p}]
    ensures ServerOk(h', p, Launch(s))
  {
    LogStays(h, h', p, s.logs);
  }

  lemma LaunchVotes(c: State, h: Hist, h': Hist, p: nat)
    requires Inv(c, h) && Enabled(c, StepLaunch(p))
    requires h' == Record(c, h, StepLaunch(p)) && Grows(h, h', p)
    ensures VotesOk(h', VotesAfter(c, StepLaunch(p)))
  {
    var s := c.servers[p];
    assert ServerOk(h, p, s);
    var votes' := VotesAfter(c, StepLaunch(p));
    forall key | key in votes'
      ensures VoteCallOk(h', key, votes'[key])
    {
      if key !in NewVotes(|c.servers|, p, LaunchArgs(s, p)) {
        assert VoteCallOk(h, key, c.votes[key]);
        VoteCallStays(h, h', p, key, c.votes[key]);
      }
    }
  }

  lemma LaunchKeeps(c: State, h: Hist, p: nat)
    requires Inv(c, h) && Enabled(c, StepLaunch(p))
    ensures Keeps(c, h, StepLaunch(p))
  {
    var step := StepLaunch(p);
    var h' := Record(c, h, step);
    var s := c.servers[p];
    assert ServerOk(h, p, s);
    LaunchGrows(h, h', p, s);
    LaunchServer(h, h', p, s);
    LaunchVotes(c, h, h', p);
    AppendsStay(c, h, h', p);
    Gather(c, h, step);
  }

  lemma CrashServer(h: Hist, p: nat, s: Server)
    requires ServerOk(h, p, s)
    ensures ServerOk(h, p, Boot(s.disk))
  {
  }

  lemma CrashKeeps(c: State, h: Hist, p: nat)
    requires Inv(c, h) && Enabled(c, StepCrash(p))
    ensures Keeps(c, h, StepCrash(p))
  {
    var step := StepCrash(p);
    var h' := Record(c, h, step);
    var s := c.servers[p];
    assert ServerOk(h, p, s);
    assert h' == h by {
      assert h'.terms == h.terms;
    }
    Unchanged(h, p);
    CrashServer(h, p, s);
    Gather(c, h, step);
  }

  lemma Unchanged(h: Hist, p: nat)
    requires p < |h.terms|
    ensures Grows(h, h, p)
  {
    TermRises(h, h, p, h.terms[p]);
    VotesSame(h, h, p);
    ReignsSame(h, h, p);
    AcksSame(h, h, p);
  }

  // ---- RequestVote at the voter ----

  /** The server of h is as good in h' if the step brought nothing new for it. */
  lemma SameTermOk(h: Hist, h': Hist, p: nat, s: Server)
    requires ServerOk(h, p, s) && Grows(h, h', p) && h'.terms[p] == h.terms[p]
    requires SameVotes(h, h') && h'.reigns == h.reigns
    ensures ServerOk(h', p, s)
  {
    LogStays(h, h', p, s.logs);
    if s.role == Leader {
      forall v | 0 <= v < |h'.terms|
        ensures s.matchIndex[v] <= Get(h'.acked, Ballot(v, s.currentTerm))
      {
        AckStays(h, h', p, Ballot(v, s.currentTerm));
      }
    }
  }

  lemma PersistOk(h: Hist, p: nat, s: Server)
    requires ServerOk(h, p, s)
    ensures ServerOk(h, p, Persist(s))
  {
  }

  lemma RequestVoteRefused(h: Hist, h': Hist, p: nat, s: Server, args: VoteArgs)
    requires HistOk(h) && HistOk(h') && ServerOk(h, p, s) && !RequestVote(s, args).1.voteGranted
    requires Grows(h, h', p) && h'.terms[p] == RequestVote(s, args).0.currentTerm
    requires SameVotes(h, h') && h'.reigns == h.reigns && h'.acked == h.acked
    ensures ServerOk(h', p, RequestVote(s, args).0)
  {
    if args.term > s.currentTerm {
      NewTermOk(h, h', p, s, RequestVote(s, args).0);
    } else {
      assert RequestVote(s, args).0 == Persist(s);
      PersistOk(h, p, s);
      SameTermOk(h, h', p, Persist(s));
    }
  }

  lemma RequestVoteGranted(h: Hist, h': Hist, p: nat, s: Server, args: VoteArgs)
    requires HistOk(h) && ServerOk(h, p, s) && 1 <= args.term && RequestVote(s, args).1.voteGranted
    requires Grows(h, h', p) && h'.terms[p] == args.term
    requires h'.firstVote == AddVote(h.firstVote, Ballot(p, args.term), args.candidateId)
    requires h'.ran == h.ran && h'.counted == h.counted && h'.reigns == h.reigns && h'.acked == h.acked
    ensures ServerOk(h', p, RequestVote(s, args).0)
  {
    LogStays(h, h', p, s.logs);
    if args.term > s.currentTerm {
      Unreached(h, p, args.term);
    }
    assert VotedForOk(h', p, RequestVote(s, args).0);
  }

  ghost predicate RequestVoteNotes(h: Hist, h': Hist, p: nat, s: Server, args: VoteArgs)
    requires p < |h.terms|
  {
    && h'.terms == h.terms[p := RequestVote(s, args).0.currentTerm]
    && h'.firstVote == (if RequestVote(s, args).1.voteGranted
                        then AddVote(h.firstVote, Ballot(p, args.term), args.candidateId) else h.firstVote)
    && h'.ran == h.ran && h'.counted == h.counted && h'.reigns == h.reigns && h'.acked == h.acked
  }

  lemma RequestVoteServer(h: Hist, h': Hist, p: nat, s: Server, args: VoteArgs)
    requires HistOk(h) && HistOk(h') && ServerOk(h, p, s) && 1 <= args.term
    requires Grows(h, h', p) && RequestVoteNotes(h, h', p, s, args)
    ensures ServerOk(h', p, RequestVote(s, args).0)
  {
    if RequestVote(s, args).1.voteGranted {
      RequestVoteGranted(h, h', p, s, args);
    } else {
      RequestVoteRefused(h, h', p, s, args);
    }
  }

  lemma RequestVoteGrows(h: Hist, h': Hist, p: nat, s: Server, args: VoteArgs)
    requires HistOk(h) && ServerOk(h, p, s) && 1 <= args.term
    requires RequestVoteNotes(h, h', p, s, args)
    requires Ballot(args.candidateId, args.term) in h.ran
    ensures Grows(h, h', p) && HistOk(h')
  {
    hide LogOk, ReignOk, RanOk, AckedOk, CandidateOk, LeaderOk, DiskOk, UpToDate;
    TermRises(h, h', p, RequestVote(s, args).0.currentTerm);
    ReignsSame(h, h', p);
    AcksSame(h, h', p);
    if RequestVote(s, args).1.voteGranted {
      VoteAdded(h, h', Ballot(p, args.term), args.candidateId);
      VoteHist(h, h', Ballot(p, args.term), args.candidateId);
    } else {
      VotesSame(h, h', p);
      HistStays(h, h', p);
    }
  }

  lemma RequestVoteCalls(c: State, h: Hist, h': Hist, key: VoteKey)
    requires Inv(c, h) && Enabled(c, StepRequestVote(key))
    requires Grows(h, h', key.dst) && h'.counted == h.counted
    requires ServerOk(h', key.dst, RequestVote(c.servers[key.dst], c.votes[key].args).0)
    ensures VotesOk(h', VotesAfter(c, StepRequestVote(key)))
  {
    hide HistOk, LogOk, AppendsOk, Growing, DiskOk;
    var votes' := VotesAfter(c, StepRequestVote(key));
    forall k | k in votes'
      ensures VoteCallOk(h', k, votes'[k])
    {
      assert VoteCallOk(h, k, c.votes[k]);
      VoteCallStays(h, h', key.dst, k, c.votes[k]);
    }
  }

  lemma RequestVoteKeeps(c: State, h: Hist, key: VoteKey)
    requires Inv(c, h) && Enabled(c, StepRequestVote(key))
    ensures Keeps(c, h, StepRequestVote(key))
  {
    var step := StepRequestVote(key);
    var h' := Record(c, h, step);
    assert ServerOk(h, key.dst, c.servers[key.dst]);
    assert VoteCallOk(h, key, c.votes[key]);
    RequestVoteGrows(h, h', key.dst, c.servers[key.dst], c.votes[key].args);
    RequestVoteServer(h, h', key.dst, c.servers[key.dst], c.votes[key].args);
    RequestVoteCalls(c, h, h', key);
    AppendsStay(c, h, h', key.dst);
    Gather(c, h, step);
  }

  // ---- the vote comes back to the candidate ----

  /** Two candidates of one term cannot both collect a majority of first votes. */
  lemma SecondMajority(h: Hist, p: nat, t: nat, voters: set<nat>)
    requires HistOk(h) && IsQuorum(|h.terms|, voters)
    requires forall v :: v in voters ==> Ballot(v, t) in h.firstVote && h.firstVote[Ballot(v, t)] == p
    ensures t in h.reigns ==> h.reigns[t].leader == p
  {
    if t in h.reigns {
      assert ReignOk(h, t);
      var v := QuorumsMeet(|h.terms|, voters, h.reigns[t].voters);
      assert Ballot(v, t) in h.firstVote;
    }
  }

  /** What a candidate knows when a vote for its current term arrives. */
  lemma CountedVote(h: Hist, p: nat, s: Server, key: VoteKey, call: VoteCall)
    requires HistOk(h) && ServerOk(h, p, s) && VoteCallOk(h, key, call)
    requires key.src == p && call.status.VoteReplied? && Counts(s, call.args, call.status.reply)
    ensures key.term == s.currentTerm && !s.due && CandidateOk(h, p, s)
    ensures SeeTerm(s, call.status.reply.term) == s
    ensures
      var b := Ballot(p, s.currentTerm);
      var voters := h.counted[b] + {key.dst};
      && AddCounted(h.counted, b, key.dst) == h.counted[b := voters]
      && |voters| == s.agreed + 1 && voters <= Below(|h.terms|)
      && forall v :: v in voters ==>
           Ballot(v, s.currentTerm) in h.firstVote && h.firstVote[Ballot(v, s.currentTerm)] == p
  {
    assert RanOk(h, Ballot(p, key.term));
  }

  lemma CountingServer(h: Hist, h': Hist, p: nat, s: Server, voter: nat)
    requires ServerOk(h, p, s) && s.role == Candidate && !s.due
    requires h' == h.(counted := h.counted[Ballot(p, s.currentTerm) := h.counted[Ballot(p, s.currentTerm)] + {voter}])
    requires Grows(h, h', p) && voter < |h.terms| && voter !in h.counted[Ballot(p, s.currentTerm)]
    requires Ballot(voter, s.currentTerm) in h.firstVote && h.firstVote[Ballot(voter, s.currentTerm)] == p
    ensures ServerOk(h', p, s.(agreed := s.agreed + 1))
  {
    LogStays(h, h', p, s.logs);
  }

  lemma VoteReplyCalls(c: State, h: Hist, h': Hist, key: VoteKey)
    requires Inv(c, h) && Enabled(c, StepVoteReply(key)) && Grows(h, h', key.src)
    requires h'.counted == CountedAfter(c, h, StepVoteReply(key))
    ensures VotesOk(h', VotesAfter(c, StepVoteReply(key)))
  {
    hide HistOk, LogOk, AppendsOk, Growing, DiskOk;
    var s := c.servers[key.src];
    assert ServerOk(h, key.src, s);
    assert VoteCallOk(h, key, c.votes[key]);
    if Counts(s, c.votes[key].args, c.votes[key].status.reply) {
      CountedVote(h, key.src, s, key, c.votes[key]);
    }
    var votes' := VotesAfter(c, StepVoteReply(key));
    forall k | k in votes'
      ensures VoteCallOk(h', k, votes'[k])
    {
      assert VoteCallOk(h, k, c.votes[k]);
      VoteCallStays(h, h', key.src, k, votes'[k]);
    }
  }

  lemma NotCountedKeeps(c: State, h: Hist, key: VoteKey)
    requires Inv(c, h) && Enabled(c, StepVoteReply(key))
    requires !Counts(c.servers[key.src], c.votes[key].args, c.votes[key].status.reply)
    ensures Keeps(c, h, StepVoteReply(key))
  {
    var step := StepVoteReply(key);
    var h' := Record(c, h, step);
    var p, s, s' := key.src, c.servers[key.src], After(c, step);
    assert ServerOk(h, p, s);
    TermRises(h, h', p, s'.currentTerm);
    VotesSame(h, h', p);
    ReignsSame(h, h', p);
    AcksSame(h, h', p);
    HistStays(h, h', p);
    SeeTermOk(h, h', p, s, c.votes[key].status.reply.term);
    VoteReplyCalls(c, h, h', key);
    AppendsStay(c, h, h', p);
    Gather(c, h, step);
  }

  lemma SeeTermOk(h: Hist, h': Hist, p: nat, s: Server, term: nat)
    requires HistOk(h) && HistOk(h') && Grows(h, h', p) && ServerOk(h, p, s)
    requires SameVotes(h, h') && h'.reigns == h.reigns
    requires h'.terms[p] == SeeTerm(s, term).currentTerm
    ensures ServerOk(h', p, SeeTerm(s, term))
  {
    if term > s.currentTerm {
      NewTermOk(h, h', p, s, SeeTerm(s, term));
    } else {
      SameTermOk(h, h', p, s);
    }
  }

  lemma CountedGrows(h: Hist, h': Hist, p: nat, t: nat, voters: set<nat>)
    requires p < |h.terms|
    requires h' == h.(counted := h.counted[Ballot(p, t) := voters])
    ensures Grows(h, h', p)
  {
    TermRises(h, h', p, h.terms[p]);
    ReignsSame(h, h', p);
    AcksSame(h, h', p);
  }

  /** What a vote that is no majority yet makes of the history and the candidate. */
  lemma CountingRecord(c: State, h: Hist, key: VoteKey)
    requires Inv(c, h) && Enabled(c, StepVoteReply(key))
    requires Counts(c.servers[key.src], c.votes[key].args, c.votes[key].status.reply)
    requires After(c, StepVoteReply(key)).role != Leader
    ensures
      var p, s := key.src, c.servers[key.src];
      var b := Ballot(p, s.currentTerm);
      && ServerOk(h, p, s) && s.role == Candidate && !s.due && b in h.counted
      && key.dst < |h.terms| && key.dst !in h.counted[b]
      && Ballot(key.dst, s.currentTerm) in h.firstVote && h.firstVote[Ballot(key.dst, s.currentTerm)] == p
      && Record(c, h, StepVoteReply(key)) == h.(counted := h.counted[b := h.counted[b] + {key.dst}])
      && After(c, StepVoteReply(key)) == s.(agreed := s.agreed + 1)
  {
    hide LogOk, AppendsOk, Growing, VotedForOk, DiskOk;
    var p, s := key.src, c.servers[key.src];
    assert ServerOk(h, p, s);
    assert VoteCallOk(h, key, c.votes[key]);
    CountedVote(h, p, s, key, c.votes[key]);
    hide HistOk;
    assert key.dst in h.counted[Ballot(p, s.currentTerm)] + {key.dst};
    assert Record(c, h, StepVoteReply(key)).terms == h.terms;
  }

  /** One more vote, but no majority yet. */
  lemma CountingKeeps(c: State, h: Hist, key: VoteKey)
    requires Inv(c, h) && Enabled(c, StepVoteReply(key))
    requires Counts(c.servers[key.src], c.votes[key].args, c.votes[key].status.reply)
    requires After(c, StepVoteReply(key)).role != Leader
    ensures Keeps(c, h, StepVoteReply(key))
  {
    CountingRecord(c, h, key);
    var step := StepVoteReply(key);
    var h' := Record(c, h, step);
    var p, s := key.src, c.servers[key.src];
    assert h'.counted == CountedAfter(c, h, step);
    hide HistOk, LogOk, VotesOk, AppendsOk, Growing, ServerOk, Record, After, Counts, CountedAfter, AppendsAfter;
    CountedGrows(h, h', p, s.currentTerm, h.counted[Ballot(p, s.currentTerm)] + {key.dst});
    hide Grows;
    HistStays(h, h', p);
    CountingServer(h, h', p, s, key.dst);
    VoteReplyCalls(c, h, h', key);
    AppendsStay(c, h, h', p);
    SameAppends(c, h', step);
    Gather(c, h, step);
  }

  lemma SameAppends(c: State, h: Hist, step: Step)
    requires Enabled(c, step) && InRange(c, step)
    requires !step.StepBuild? && !step.StepAppendEntries? && !step.StepAppendReply?
    requires AppendsOk(h, c.appends) && Growing(c.appends)
    ensures AppendsOk(h, AppendsAfter(c, step)) && Growing(AppendsAfter(c, step))
  {
  }

  /** The election: the candidate's log becomes the log of the term. */
  lemma ElectionGrows(h: Hist, h': Hist, p: nat, s: Server, voters: set<nat>)
    requires HistOk(h) && ServerOk(h, p, s) && s.role == Candidate && !s.due
    requires IsQuorum(|h.terms|, voters)
    requires forall v :: v in voters ==>
               Ballot(v, s.currentTerm) in h.firstVote && h.firstVote[Ballot(v, s.currentTerm)] == p
    requires h' == h.(counted := h.counted[Ballot(p, s.currentTerm) := voters],
                      reigns := h.reigns[s.currentTerm := Reign(p, voters, s.logs, s.logs)])
    ensures Grows(h, h', p) && s.currentTerm !in h.reigns
    ensures h'.terms == h.terms && h'.acked == h.acked && h'.firstVote == h.firstVote && h'.ran == h.ran
  {
    hide LogOk, ReignOk, VoteOk, RanOk, AckedOk, VotedForOk, LeaderOk, DiskOk;
    SecondMajority(h, p, s.currentTerm, voters);
    hide HistOk;
    TermRises(h, h', p, s.currentTerm);
    AcksSame(h, h', p);
  }

  lemma ElectionHist(h: Hist, h': Hist, p: nat, s: Server, voters: set<nat>)
    requires HistOk(h) && ServerOk(h, p, s) && s.role == Candidate && !s.due
    requires IsQuorum(|h.terms|, voters) && Grows(h, h', p) && s.currentTerm !in h.reigns
    requires forall v :: v in voters ==>
               Ballot(v, s.currentTerm) in h.firstVote && h.firstVote[Ballot(v, s.currentTerm)] == p
    requires h'.terms == h.terms && h'.acked == h.acked && h'.firstVote == h.firstVote && h'.ran == h.ran
    requires h'.reigns == h.reigns[s.currentTerm := Reign(p, voters, s.logs, s.logs)]
    ensures HistOk(h')
  {
    LogStays(h, h', p, s.logs);
    forall i | 0 <= i < |s.logs|
      ensures s.logs[i].term < s.currentTerm
    {
      assert Sourced(h, s.logs, i);
    }
    assert ReignOk(h', s.currentTerm);
    HistStays(h, h', p);
  }

  lemma ElectionServer(h: Hist, h': Hist, p: nat, s: Server, s': Server, voters: set<nat>)
    requires ServerOk(h, p, s) && Grows(h, h', p) && s.currentTerm !in h.reigns
    requires h'.terms == h.terms && h'.acked == h.acked && h'.firstVote == h.firstVote && h'.ran == h.ran
    requires h'.reigns == h.reigns[s.currentTerm := Reign(p, voters, s.logs, s.logs)]
    requires s' == Persist(s.(agreed := s'.agreed, role := Leader,
                              nextIndex := s'.nextIndex, matchIndex := s'.matchIndex))
    requires !s.due && |s'.nextIndex| == |s'.matchIndex| == |h.terms|
    requires forall q :: 0 <= q < |h.terms| ==> s'.nextIndex[q] == |s.logs| + 1 && s'.matchIndex[q] == 0
    ensures ServerOk(h', p, s')
  {
    LogStays(h, h', p, s.logs);
  }

  lemma ElectionRecord(c: State, h: Hist, key: VoteKey)
    requires Inv(c, h) && Enabled(c, StepVoteReply(key))
    requires Counts(c.servers[key.src], c.votes[key].args, c.votes[key].status.reply)
    requires After(c, StepVoteReply(key)).role == Leader
    ensures
      var p, s := key.src, c.servers[key.src];
      var b := Ballot(p, s.currentTerm);
      var voters := (if b in h.counted then h.counted[b] else {}) + {key.dst};
      Record(c, h, StepVoteReply(key)) ==
      h.(counted := h.counted[b := voters],
         reigns := h.reigns[s.currentTerm := Reign(p, voters, s.logs, s.logs)])
  {
    var p, s := key.src, c.servers[key.src];
    assert ServerOk(h, p, s);
    assert VoteCallOk(h, key, c.votes[key]);
    CountedVote(h, p, s, key, c.votes[key]);
    assert h.terms[p := s.currentTerm] == h.terms;
  }

  lemma ElectionKeeps(c: State, h: Hist, key: VoteKey)
    requires Inv(c, h) && Enabled(c, StepVoteReply(key))
    requires Counts(c.servers[key.src], c.votes[key].args, c.votes[key].status.reply)
    requires After(c, StepVoteReply(key)).role == Leader
    ensures Keeps(c, h, StepVoteReply(key))
  {
    hide HistOk, LogOk, AppendsOk, Grows, VotedForOk;
    var step := StepVoteReply(key);
    var h' := Record(c, h, step);
    var p, s := key.src, c.servers[key.src];
    assert ServerOk(h, p, s);
    assert VoteCallOk(h, key, c.votes[key]);
    CountedVote(h, p, s, key, c.votes[key]);
    ElectionRecord(c, h, key);
    var voters := h.counted[Ballot(p, s.currentTerm)] + {key.dst};
    ElectionGrows(h, h', p, s, voters);
    ElectionHist(h, h', p, s, voters);
    ElectionServer(h, h', p, s, After(c, step), voters);
    VoteReplyCalls(c, h, h', key);
    AppendsStay(c, h, h', p);
    Gather(c, h, step);
  }

  lemma VoteReplyKeeps(c: State, h: Hist, key: VoteKey)
    requires Inv(c, h) && Enabled(c, StepVoteReply(key))
    ensures Keeps(c, h, StepVoteReply(key))
  {
    if !Counts(c.servers[key.src], c.votes[key].args, c.votes[key].status.reply) {
      NotCountedKeeps(c, h, key);
    } else if After(c, StepVoteReply(key)).role == Leader {
      ElectionKeeps(c, h, key);
    } else {
      CountingKeeps(c, h, key);
    }
  }
}
