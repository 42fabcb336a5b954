/** How the history grows in one step, and why the pieces that a step does not touch stay in order. */
module Growth {
  import opened RaftTypes
  import opened RaftServer
  import opened Cluster
  import opened History
  import opened Invariants

  /** h' adds to h what a step at server p can add. */
  ghost predicate TermsGrow(h: Hist, h': Hist, p: nat) {
    && |h'.terms| == |h.terms| && p < |h.terms|
    && (forall q :: 0 <= q < |h.terms| && q != p ==> h'.terms[q] == h.terms[q])
    && h.terms[p] <= h'.terms[p]
  }

  ghost predicate VotesGrow(h: Hist, h': Hist, p: nat)
    requires p < |h.terms|
  {
    && (forall b :: b in h.firstVote ==> b in h'.firstVote && h'.firstVote[b] == h.firstVote[b])
    && (forall b :: b in h'.firstVote && b !in h.firstVote ==> b.server == p && h.terms[p] <= b.term)
    && (forall b :: b in h.ran ==> b in h'.ran && h'.ran[b] == h.ran[b])
    && (forall b :: b in h'.ran && b !in h.ran ==> b.server == p && h.terms[p] == b.term)
    && (forall b: Ballot :: b.server != p ==> (b in h.counted <==> b in h'.counted))
    && (forall b: Ballot :: b.server != p && b in h.counted ==> h'.counted[b] == h.counted[b])
  }

  ghost predicate SameReign(r: Reign, r': Reign) {
    r'.leader == r.leader && r'.voters == r.voters && r'.start == r.start && r.log <= r'.log
  }

  ghost predicate ReignsGrow(h: Hist, h': Hist, p: nat)
    requires p < |h.terms| == |h'.terms|
  {
    && (forall t :: t in h.reigns ==> t in h'.reigns && SameReign(h.reigns[t], h'.reigns[t]))
    && (forall t :: t in h'.reigns && (t in h.reigns ==> h'.reigns[t].log != h.reigns[t].log)
          ==> h'.reigns[t].leader == p && t == h.terms[p] == h'.terms[p])
    && (forall t :: t in h'.reigns && t !in h.reigns ==> h'.reigns[t].log == h'.reigns[t].start)
  }

  ghost predicate AcksGrow(h: Hist, h': Hist, p: nat)
    requires p < |h.terms| == |h'.terms|
  {
    && (forall b :: b in h.acked ==> b in h'.acked && h.acked[b] <= h'.acked[b])
    && (forall b :: b in h'.acked && (b in h.acked ==> h'.acked[b] != h.acked[b])
          ==> b.server == p && h.terms[p] <= b.term == h'.terms[p])
  }

  ghost predicate Grows(h: Hist, h': Hist, p: nat) {
    TermsGrow(h, h', p) && VotesGrow(h, h', p) && ReignsGrow(h, h', p) && AcksGrow(h, h', p)
  }

  // ---- the parts of the history that a step leaves alone, or changes in one place ----

  lemma TermRises(h: Hist, h': Hist, p: nat, t: nat)
    requires p < |h.terms| && h.terms[p] <= t && h'.terms == h.terms[p := t]
    ensures TermsGrow(h, h', p)
  {
  }

  ghost predicate SameVotes(h: Hist, h': Hist) {
    h'.firstVote == h.firstVote && h'.ran == h.ran && h'.counted == h.counted
  }

  lemma VotesSame(h: Hist, h': Hist, p: nat)
    requires p < |h.terms| && SameVotes(h, h')
    ensures VotesGrow(h, h', p)
  {
  }

  lemma VoteAdded(h: Hist, h': Hist, b: Ballot, candidate: nat)
    requires b.server < |h.terms| && h.terms[b.server] <= b.term
    requires h'.firstVote == AddVote(h.firstVote, b, candidate) && h'.ran == h.ran && h'.counted == h.counted
    ensures VotesGrow(h, h', b.server)
  {
  }

  lemma ReignsSame(h: Hist, h': Hist, p: nat)
    requires p < |h.terms| == |h'.terms| && h'.reigns == h.reigns
    ensures ReignsGrow(h, h', p)
  {
  }

  lemma AcksSame(h: Hist, h': Hist, p: nat)
    requires p < |h.terms| == |h'.terms| && h'.acked == h.acked
    ensures AcksGrow(h, h', p)
  {
  }

  lemma LogStays(h: Hist, h': Hist, p: nat, log: Log)
    requires Grows(h, h', p) && LogOk(h, log)
    ensures LogOk(h', log)
  {
    forall i | 0 <= i < |log|
      ensures Sourced(h', log, i)
    {
      assert Sourced(h, log, i);
      var t := log[i].term;
      assert SameReign(h.reigns[t], h'.reigns[t]);
      assert h'.reigns[t].log[..i + 1] == h.reigns[t].log[..i + 1];
    }
  }

  lemma AckStays(h: Hist, h': Hist, p: nat, b: Ballot)
    requires Grows(h, h', p)
    ensures Get(h.acked, b) <= Get(h'.acked, b)
    ensures b.server != p ==> Get(h.acked, b) == Get(h'.acked, b)
  {
  }

  lemma OtherServerStays(h: Hist, h': Hist, p: nat, q: nat, s: Server)
    requires Grows(h, h', p) && q != p && ServerOk(h, q, s)
    ensures ServerOk(h', q, s)
  {
    LogStays(h, h', p, s.logs);
    var t := s.currentTerm;
    assert VotedForOk(h', q, s);
    if s.role == Candidate {
      assert CandidateOk(h', q, s);
    }
    if s.role == Leader {
      forall v | 0 <= v < |h'.terms|
        ensures s.matchIndex[v] <= Get(h'.acked, Ballot(v, t))
      {
        AckStays(h, h', p, Ballot(v, t));
      }
      assert SameReign(h.reigns[t], h'.reigns[t]);
    }
  }

  lemma ServersStay(c: State, h: Hist, h': Hist, p: nat, s': Server)
    requires Inv(c, h) && Grows(h, h', p) && ServerOk(h', p, s')
    ensures ServersOk(h', c.servers[p := s'])
  {
    var servers' := c.servers[p := s'];
    forall q | 0 <= q < |servers'|
      ensures ServerOk(h', q, servers'[q])
    {
      if q != p {
        OtherServerStays(h, h', p, q, c.servers[q]);
      }
    }
  }

  lemma VoteCallStays(h: Hist, h': Hist, p: nat, key: VoteKey, call: VoteCall)
    requires Grows(h, h', p) && VoteCallOk(h, key, call)
    requires
      var b := Ballot(key.src, key.term);
      !call.status.VoteDone? && b in h'.counted && key.dst in h'.counted[b]
      ==> b in h.counted && key.dst in h.counted[b]
    ensures VoteCallOk(h', key, call)
  {
    if call.status.VoteReplied? && call.status.reply.voteGranted && key.term in h.reigns {
      assert SameReign(h.reigns[key.term], h'.reigns[key.term]);
    }
  }

  lemma VotesStay(c: State, h: Hist, h': Hist, p: nat)
    requires Inv(c, h) && Grows(h, h', p) && h'.counted == h.counted
    ensures VotesOk(h', c.votes)
  {
    forall key | key in c.votes
      ensures VoteCallOk(h', key, c.votes[key])
    {
      VoteCallStays(h, h', p, key, c.votes[key]);
    }
  }

  lemma AppendArgsStay(h: Hist, h': Hist, p: nat, src: nat, args: AppendArgs)
    requires Grows(h, h', p) && AppendArgsOk(h, src, args)
    ensures AppendArgsOk(h', src, args)
  {
    var r, r' := h.reigns[args.term], h'.reigns[args.term];
    assert SameReign(r, r');
    assert r'.log[args.prevLogIndex..args.Reach()] == r.log[args.prevLogIndex..args.Reach()];
  }

  lemma AppendCallStays(h: Hist, h': Hist, p: nat, call: AppendCall)
    requires Grows(h, h', p) && AppendCallOk(h, call)
    ensures AppendCallOk(h', call)
  {
    AppendArgsStay(h, h', p, call.src, call.args);
    AckStays(h, h', p, Ballot(call.dst, call.args.term));
  }

  lemma AppendsStay(c: State, h: Hist, h': Hist, p: nat)
    requires Inv(c, h) && Grows(h, h', p)
    ensures AppendsOk(h', c.appends)
  {
    forall id | 0 <= id < |c.appends|
      ensures AppendCallOk(h', c.appends[id])
    {
      AppendCallStays(h, h', p, c.appends[id]);
    }
  }

  lemma ReignStays(h: Hist, h': Hist, p: nat, t: nat)
    requires Grows(h, h', p) && t in h.reigns && ReignOk(h, t) && h'.reigns[t].log == h.reigns[t].log
    ensures ReignOk(h', t)
  {
    assert SameReign(h.reigns[t], h'.reigns[t]);
    LogStays(h, h', p, h.reigns[t].log);
  }

  lemma RanStays(h: Hist, h': Hist, p: nat, b: Ballot)
    requires Grows(h, h', p) && b in h.ran && RanOk(h, b)
    ensures RanOk(h', b)
  {
    LogStays(h, h', p, h.ran[b]);
  }

  lemma AckedStays(h: Hist, h': Hist, p: nat, b: Ballot)
    requires Grows(h, h', p) && b in h.acked && AckedOk(h, b) && h'.acked[b] == h.acked[b]
    ensures AckedOk(h', b)
  {
    assert SameReign(h.reigns[b.term], h'.reigns[b.term]);
  }

  /** To check the history again it is enough to look at what is new in it. */
  lemma HistStays(h: Hist, h': Hist, p: nat)
    requires HistOk(h) && Grows(h, h', p)
    requires forall t :: t in h'.reigns && (t in h.reigns ==> h'.reigns[t].log != h.reigns[t].log) ==> ReignOk(h', t)
    requires forall b :: b in h'.firstVote && b !in h.firstVote ==> VoteOk(h', b)
    requires forall b :: b in h'.ran && b !in h.ran ==> RanOk(h', b)
    requires forall b :: b in h'.acked && (b in h.acked ==> h'.acked[b] != h.acked[b]) ==> AckedOk(h', b)
    ensures HistOk(h')
  {
    forall t | t in h'.reigns
      ensures ReignOk(h', t)
    {
      if t in h.reigns && h'.reigns[t].log == h.reigns[t].log {
        ReignStays(h, h', p, t);
      }
    }
    forall b | b in h'.ran
      ensures RanOk(h', b)
    {
      if b in h.ran {
        RanStays(h, h', p, b);
      }
    }
    forall b | b in h'.acked
      ensures AckedOk(h', b)
    {
      if b in h.acked && h'.acked[b] == h.acked[b] {
        AckedStays(h, h', p, b);
      }
    }
    forall b | b in h'.firstVote
      ensures VoteOk(h', b)
    {
      if b in h.firstVote {
        assert VoteOk(h, b);
      }
    }
  }
}
