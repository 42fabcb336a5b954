/**
 What holds as long as no message shortens a log that the same leader has already installed:
 whatever a majority may hold is in the log of every later leader, and the committed log only grows.
 */
module Safety {
  import opened RaftTypes
  import opened RaftServer
  import opened Cluster
  import opened History
  import opened Quorums
  import opened Invariants
  import opened Growth
  import opened Steps
  import opened LogSteps

  /** How much of the log of term t server v is known to hold. */
  function Ack(h: Hist, v: nat, t: nat): nat {
    if t in h.reigns && h.reigns[t].leader == v then |h.reigns[t].log| else Get(h.acked, Ballot(v, t))
  }

  /** Entry k (counted from 1) of the log of term t was added by the leader of t itself. */
  predicate Own(h: Hist, t: nat, k: nat) {
    t in h.reigns && |h.reigns[t].start| < k <= |h.reigns[t].log|
  }

  /** Every member of q holds the first k entries of term t, or has not yet left term t. */
  ghost predicate Supports(h: Hist, q: set<nat>, t: nat, k: nat) {
    && IsQuorum(|h.terms|, q)
    && forall v :: v in q && h.terms[v] > t ==> Ack(h, v, t) >= k
  }

  /** The first k entries of term t are, or may still become, the property of a majority. */
  ghost predicate Held(h: Hist, t: nat, k: nat) {
    Own(h, t, k) && exists q :: Supports(h, q, t, k)
  }

  ghost predicate Everywhere(h: Hist, q: set<nat>, t: nat, k: nat) {
    && IsQuorum(|h.terms|, q)
    && forall v :: v in q ==> Ack(h, v, t) >= k
  }

  /** A majority holds them. */
  ghost predicate Chosen(h: Hist, t: nat, k: nat) {
    Own(h, t, k) && exists q :: Everywhere(h, q, t, k)
  }

  function Piece(h: Hist, t: nat, k: nat): Log
    requires Own(h, t, k)
  {
    h.reigns[t].log[..k]
  }

  ghost predicate SafeReigns(h: Hist) {
    forall t: nat, t': nat, k: nat :: Held(h, t, k) && t' in h.reigns && t < t' ==> Piece(h, t, k) <= h.reigns[t'].start
  }

  ghost predicate SafeVote(h: Hist, b: Ballot)
    requires b in h.firstVote
  {
    var r := Ballot(h.firstVote[b], b.term);
    forall t: nat, k: nat :: r in h.ran && t < b.term && Held(h, t, k) && k <= Ack(h, b.server, t)
      ==> Piece(h, t, k) <= h.ran[r]
  }

  ghost predicate SafeVotes(h: Hist) {
    forall b :: b in h.firstVote ==> SafeVote(h, b)
  }

  ghost predicate KeepsHeld(h: Hist, p: nat, log: Log) {
    forall t: nat, k: nat :: Held(h, t, k) && k <= Ack(h, p, t) ==> Piece(h, t, k) <= log
  }

  ghost predicate KeepsAcked(h: Hist, p: nat, s: Server) {
    var b := Ballot(p, s.currentTerm);
    (b in h.acked && s.currentTerm in h.reigns && h.acked[b] <= |h.reigns[s.currentTerm].log|)
    ==> s.logs == h.reigns[s.currentTerm].log[..h.acked[b]]
  }

  ghost predicate SafeServer(h: Hist, p: nat, s: Server) {
    && KeepsAcked(h, p, s)
    && KeepsHeld(h, p, s.logs)
    && s.commitIndex <= |s.logs| && s.logs[..s.commitIndex] <= h.committed
  }

  ghost predicate SafeCall(h: Hist, args: AppendArgs) {
    && args.term in h.reigns && args.leaderCommit <= |h.reigns[args.term].log|
    && h.reigns[args.term].log[..args.leaderCommit] <= h.committed
  }

  ghost predicate CommittedOk(h: Hist) {
    h.committed != [] ==>
      && Chosen(h, h.commitTerm, |h.committed|)
      && h.committed == Piece(h, h.commitTerm, |h.committed|)
  }

  ghost predicate SafeHist(h: Hist) {
    SafeReigns(h) && SafeVotes(h) && CommittedOk(h)
  }

  ghost predicate SafeServers(h: Hist, servers: seq<Server>) {
    forall p :: 0 <= p < |servers| ==> SafeServer(h, p, servers[p])
  }

  ghost predicate SafeCalls(h: Hist, appends: seq<AppendCall>) {
    forall id :: 0 <= id < |appends| ==> SafeCall(h, appends[id].args)
  }

  ghost predicate SafeInv(c: State, h: Hist) {
    Inv(c, h) && SafeHist(h) && SafeServers(h, c.servers) && SafeCalls(h, c.appends)
  }

  /** The message, if accepted, leaves the follower at least what this term's leader gave it before. */
  ghost predicate NoLoss(c: State, h: Hist, step: Step)
    requires Enabled(c, step)
  {
    AcceptedIn(c, step) ==>
      var call := c.appends[step.id];
      Get(h.acked, Ballot(call.dst, call.args.term)) <= call.args.Reach()
  }

  // ---- what may be held only shrinks ----

  /** A server acknowledges entries only of a term it has not left. */
  lemma AckFixed(h: Hist, h': Hist, p: nat, v: nat, t: nat)
    requires HistOk(h) && Grows(h, h', p) && v < |h.terms| && h.terms[v] > t
    ensures Ack(h', v, t) == Ack(h, v, t)
  {
    if t in h'.reigns && t !in h.reigns {
      assert t == h.terms[p];
      assert Ballot(v, t) in h.acked ==> AckedOk(h, Ballot(v, t));
    } else if t in h.reigns {
      assert SameReign(h.reigns[t], h'.reigns[t]);
    }
  }

  lemma AckBound(h: Hist, v: nat, t: nat)
    requires HistOk(h)
    ensures t in h.reigns ==> Ack(h, v, t) <= |h.reigns[t].log|
    ensures t !in h.reigns ==> Ack(h, v, t) == 0
  {
    assert Ballot(v, t) in h.acked ==> AckedOk(h, Ballot(v, t));
  }

  lemma HeldBefore(h: Hist, h': Hist, p: nat, t: nat, k: nat)
    requires HistOk(h) && Grows(h, h', p) && Held(h', t, k)
    requires t in h.reigns && k <= |h.reigns[t].log|
    ensures Held(h, t, k) && Piece(h, t, k) == Piece(h', t, k)
  {
    hide HistOk;
    assert SameReign(h.reigns[t], h'.reigns[t]);
    var q :| Supports(h', q, t, k);
    forall v | v in q && h.terms[v] > t
      ensures Ack(h, v, t) >= k
    {
      assert h'.terms[v] >= h.terms[v];
      AckFixed(h, h', p, v, t);
    }
    assert Supports(h, q, t, k);
  }

  /** A majority that has left term t by voting later includes a server that holds the entries. */
  lemma HolderAmong(h: Hist, t: nat, k: nat, voters: set<nat>) returns (v: nat)
    requires Held(h, t, k) && IsQuorum(|h.terms|, voters)
    requires forall v :: v in voters ==> h.terms[v] > t
    ensures v in voters && Ack(h, v, t) >= k
  {
    var q :| Supports(h, q, t, k);
    v := QuorumsMeet(|h.terms|, q, voters);
  }

  lemma VotersLeft(h: Hist, t: nat, t': nat)
    requires HistOk(h) && t' in h.reigns && t < t'
    ensures IsQuorum(|h.terms|, h.reigns[t'].voters)
    ensures forall v :: v in h.reigns[t'].voters ==> v < |h.terms| && h.terms[v] > t
  {
    assert ReignOk(h, t');
    forall v | v in h.reigns[t'].voters
      ensures v < |h.terms| && h.terms[v] > t
    {
      assert VoteOk(h, Ballot(v, t'));
    }
  }

  // ---- leader completeness ----

  /** Both leaders were there before the step. */
  lemma OldReignsSafe(h: Hist, h': Hist, p: nat, t: nat, t': nat, k: nat)
    requires HistOk(h) && HistOk(h') && Grows(h, h', p) && SafeReigns(h)
    requires Held(h', t, k) && t in h.reigns && t' in h.reigns && t < t'
    ensures Piece(h', t, k) <= h'.reigns[t'].start
  {
    assert SameReign(h.reigns[t], h'.reigns[t]) && SameReign(h.reigns[t'], h'.reigns[t']);
    if k <= |h.reigns[t].log| {
      HeldBefore(h, h', p, t, k);
    } else {
      VotersLeft(h', t, t');
      var v := HolderAmong(h', t, k, h'.reigns[t'].voters);
      VotersLeft(h, t, t');
      AckFixed(h, h', p, v, t);
      AckBound(h, v, t);
      assert false;
    }
  }

  /** A leader has just been elected: its voters kept what may be held, and it was elected with that. */
  lemma NewReignSafe(h: Hist, h': Hist, p: nat, t: nat, t': nat, k: nat)
    requires HistOk(h) && HistOk(h') && Grows(h, h', p) && SafeVotes(h)
    requires h'.firstVote == h.firstVote && h'.ran == h.ran && h'.terms == h.terms
    requires Held(h', t, k) && t in h.reigns && t' in h'.reigns && t' !in h.reigns && t < t'
    ensures Piece(h', t, k) <= h'.reigns[t'].start
  {
    assert SameReign(h.reigns[t], h'.reigns[t]);
    HeldBefore(h, h', p, t, k);
    VotersLeft(h', t, t');
    assert ReignOk(h', t');
    var v := HolderAmong(h, t, k, h'.reigns[t'].voters);
    assert SafeVote(h, Ballot(v, t'));
  }

  lemma ReignsStaySafe(h: Hist, h': Hist, p: nat)
    requires HistOk(h) && HistOk(h') && Grows(h, h', p) && SafeReigns(h) && SafeVotes(h)
    requires h'.reigns.Keys == h.reigns.Keys || (h'.firstVote == h.firstVote && h'.ran == h.ran && h'.terms == h.terms)
    ensures SafeReigns(h')
  {
    forall t: nat, t': nat, k: nat | Held(h', t, k) && t' in h'.reigns && t < t'
      ensures Piece(h', t, k) <= h'.reigns[t'].start
    {
      assert t in h.reigns;
      if t' in h.reigns {
        OldReignsSafe(h, h', p, t, t', k);
      } else {
        NewReignSafe(h, h', p, t, t', k);
      }
    }
  }

  // ---- votes ----

  lemma OldVoteSafe(h: Hist, h': Hist, p: nat, b: Ballot)
    requires HistOk(h) && HistOk(h') && Grows(h, h', p) && b in h.firstVote && SafeVote(h, b)
    requires Ballot(h.firstVote[b], b.term) in h'.ran ==> Ballot(h.firstVote[b], b.term) in h.ran
    ensures SafeVote(h', b)
  {
    var r := Ballot(h.firstVote[b], b.term);
    assert VoteOk(h, b);
    forall t: nat, k: nat | r in h'.ran && t < b.term && Held(h', t, k) && k <= Ack(h', b.server, t)
      ensures Piece(h', t, k) <= h'.ran[r]
    {
      AckFixed(h, h', p, b.server, t);
      AckBound(h, b.server, t);
      HeldBefore(h, h', p, t, k);
    }
  }

  /** The election restriction: a voter that holds entries votes only for a log that has them. */
  lemma RestrictionKeeps(h: Hist, q: nat, s: Server, args: VoteArgs, log: Log, t: nat, k: nat)
    requires HistOk(h) && ServerOk(h, q, s) && SafeReigns(h) && KeepsHeld(h, q, s.logs)
    requires LogOk(h, log) && args.lastLogIndex == |log| && args.lastLogTerm == LastTerm(log)
    requires UpToDate(s.logs, args)
    requires Held(h, t, k) && k <= Ack(h, q, t)
    ensures Piece(h, t, k) <= log
  {
    hide VoteOk, RanOk, AckedOk, VotedForOk, CandidateOk, LeaderOk, DiskOk;
    assert ReignOk(h, t);
    var last := |s.logs| - 1;
    assert s.logs[k - 1] == Piece(h, t, k)[k - 1];
    assert s.logs[k - 1].term == t;
    LogSorted(h, s.logs, k - 1, last);
    assert Sourced(h, log, |log| - 1);
    if LastTerm(log) == LastTerm(s.logs) {
      assert Sourced(h, s.logs, last);
      assert s.logs[..last + 1] == s.logs;
      assert log[..|log|] == log;
      assert s.logs <= log;
    } else {
      var t' := LastTerm(log);
      assert ReignOk(h, t');
      assert Piece(h, t, k) <= h.reigns[t'].start;
      assert log == h.reigns[t'].log[..|log|];
    }
  }

  // ---- servers ----

  lemma OtherKeepsHeld(h: Hist, h': Hist, p: nat, q: nat, log: Log)
    requires HistOk(h) && Grows(h, h', p) && q != p && q < |h.terms| && KeepsHeld(h, q, log)
    ensures KeepsHeld(h', q, log)
  {
    forall t: nat, k: nat | Held(h', t, k) && k <= Ack(h', q, t)
      ensures Piece(h', t, k) <= log
    {
      OtherAck(h, h', p, q, t);
      AckBound(h, q, t);
      HeldBefore(h, h', p, t, k);
    }
  }

  lemma OtherAck(h: Hist, h': Hist, p: nat, q: nat, t: nat)
    requires HistOk(h) && Grows(h, h', p) && q != p
    ensures Ack(h', q, t) == Ack(h, q, t)
  {
    AckStays(h, h', p, Ballot(q, t));
    if t in h.reigns {
      assert SameReign(h.reigns[t], h'.reigns[t]);
    }
  }

  lemma OtherKeepsAcked(h: Hist, h': Hist, p: nat, q: nat, s: Server)
    requires HistOk(h) && Grows(h, h', p) && q != p && KeepsAcked(h, q, s)
    ensures KeepsAcked(h', q, s)
  {
    hide VotesGrow, ReignOk, VoteOk, RanOk, LogOk;
    var b := Ballot(q, s.currentTerm);
    if b in h.acked {
      assert AckedOk(h, b);
      assert SameReign(h.reigns[s.currentTerm], h'.reigns[s.currentTerm]);
    }
  }

  lemma OtherServerSafe(h: Hist, h': Hist, p: nat, q: nat, s: Server)
    requires HistOk(h) && Grows(h, h', p) && q != p && q < |h.terms| && SafeServer(h, q, s)
    requires h.committed <= h'.committed
    ensures SafeServer(h', q, s)
  {
    OtherKeepsHeld(h, h', p, q, s.logs);
    OtherKeepsAcked(h, h', p, q, s);
  }

  /** The actor did not touch its log, and nothing new was acknowledged. */
  lemma ActorSafe(h: Hist, h': Hist, p: nat, s: Server, s': Server)
    requires HistOk(h) && HistOk(h') && Grows(h, h', p)
    requires ServerOk(h, p, s) && ServerOk(h', p, s') && SafeServer(h, p, s)
    requires h'.acked == h.acked && h'.reigns == h.reigns
    requires s'.logs == s.logs && s'.commitIndex <= |s.logs| && s.logs[..s'.commitIndex] <= h'.committed
    ensures SafeServer(h', p, s')
  {
    forall t: nat, k: nat | Held(h', t, k) && k <= Ack(h', p, t)
      ensures Piece(h', t, k) <= s'.logs
    {
      HeldBefore(h, h', p, t, k);
    }
    if s'.currentTerm > s.currentTerm {
      Unreached(h, p, s'.currentTerm);
    }
  }
}
