/**
 What a run has done so far, written down for the proofs. No step of the cluster looks at it.
 Every log of the cluster is a piece of some leader's log, so the history keeps one log per term.
 */
module History {
  import opened RaftTypes
  import opened RaftServer
  import opened Cluster

  datatype Ballot = Ballot(server: nat, term: nat)

  /** The one leader of a term: who it is, which voters it counted, its log when it was elected and now. */
  datatype Reign = Reign(leader: nat, voters: set<nat>, start: Log, log: Log)

  datatype Hist = Hist(
    terms: seq<nat>,                 // the current term of each server
    firstVote: map<Ballot, nat>,     // the first candidate that a server voted for in a term
    ran: map<Ballot, Log>,           // the log with which a server asked for votes in a term
    counted: map<Ballot, set<nat>>,  // the voters that a candidate has counted
    reigns: map<nat, Reign>,         // by term
    acked: map<Ballot, nat>,         // the longest log that a server accepted from a term's leader
    committed: Log,                  // the longest log that a leader has committed
    commitTerm: nat)                 // and that leader's term

  function NoHistory(n: nat): Hist {
    Hist(seq(n, i => 0), map[], map[], map[], map[], map[], [], 0)
  }

  function Max(a: nat, b: nat): nat {
    if a < b then b else a
  }

  function Get(m: map<Ballot, nat>, b: Ballot): nat {
    if b in m then m[b] else 0
  }

  function AddVote(votes: map<Ballot, nat>, b: Ballot, candidate: nat): map<Ballot, nat> {
    if b in votes then votes else votes[b := candidate]
  }

  function AddCounted(counted: map<Ballot, set<nat>>, b: Ballot, voter: nat): map<Ballot, set<nat>> {
    counted[b := (if b in counted then counted[b] else {}) + {voter}]
  }

  function FirstVoteAfter(c: State, h: Hist, step: Step): map<Ballot, nat>
    requires Enabled(c, step)
  {
    match step
    case StepTimeout(p) => AddVote(h.firstVote, Ballot(p, c.servers[p].currentTerm + 1), p)
    case StepRequestVote(key) =>
      var args := c.votes[key].args;
      if RequestVote(c.servers[key.dst], args).1.voteGranted
      then AddVote(h.firstVote, Ballot(key.dst, args.term), args.candidateId)
      else h.firstVote
    case _ => h.firstVote
  }

  function RanAfter(c: State, h: Hist, step: Step): map<Ballot, Log>
    requires Enabled(c, step)
  {
    match step
    case StepLaunch(p) => h.ran[Ballot(p, c.servers[p].currentTerm) := c.servers[p].logs]
    case _ => h.ran
  }

  function CountedAfter(c: State, h: Hist, step: Step): map<Ballot, set<nat>>
    requires Enabled(c, step)
  {
    match step
    case StepLaunch(p) => h.counted[Ballot(p, c.servers[p].currentTerm) := {p}]
    case StepVoteReply(key) =>
      var s := c.servers[key.src];
      if Counts(s, c.votes[key].args, c.votes[key].status.reply)
      then AddCounted(h.counted, Ballot(key.src, s.currentTerm), key.dst)
      else h.counted
    case _ => h.counted
  }

  function ReignsAfter(c: State, h: Hist, step: Step): map<nat, Reign>
    requires Enabled(c, step) && InRange(c, step)
  {
    match step
    case StepVoteReply(key) =>
      var s := c.servers[key.src];
      if Counts(s, c.votes[key].args, c.votes[key].status.reply) && After(c, step).role == Leader then
        var voters := AddCounted(h.counted, Ballot(key.src, s.currentTerm), key.dst)[Ballot(key.src, s.currentTerm)];
        h.reigns[s.currentTerm := Reign(key.src, voters, s.logs, s.logs)]
      else h.reigns
    case StepStart(p, command) =>
      var s := c.servers[p];
      if s.role == Leader && s.currentTerm in h.reigns
      then h.reigns[s.currentTerm := h.reigns[s.currentTerm].(log := After(c, step).logs)]
      else h.reigns
    case _ => h.reigns
  }

  predicate AcceptedIn(c: State, step: Step)
    requires Enabled(c, step)
  {
    step.StepAppendEntries? && Accepts(c.servers[c.appends[step.id].dst], c.appends[step.id].args)
  }

  function AckedAfter(c: State, h: Hist, step: Step): map<Ballot, nat>
    requires Enabled(c, step)
  {
    if AcceptedIn(c, step) then
      var b := Ballot(c.appends[step.id].dst, c.appends[step.id].args.term);
      h.acked[b := Max(Get(h.acked, b), c.appends[step.id].args.Reach())]
    else h.acked
  }

  /** A leader's commit loop moved past everything committed so far. */
  predicate CommitsIn(c: State, h: Hist, step: Step)
    requires Enabled(c, step) && InRange(c, step)
  {
    && step.StepAppendReply?
    && var s, s' := c.servers[Actor(c, step)], After(c, step);
       |h.committed| < s'.commitIndex <= |s.logs| && s.commitIndex < s'.commitIndex
  }

  function Record(c: State, h: Hist, step: Step): Hist
    requires Enabled(c, step) && InRange(c, step) && |h.terms| == |c.servers|
  {
    var p := Actor(c, step);
    Hist(
      h.terms[p := After(c, step).currentTerm],
      FirstVoteAfter(c, h, step), RanAfter(c, h, step), CountedAfter(c, h, step),
      ReignsAfter(c, h, step),
      AckedAfter(c, h, step),
      if CommitsIn(c, h, step) then c.servers[p].logs[..After(c, step).commitIndex] else h.committed,
      if CommitsIn(c, h, step) then c.servers[p].currentTerm else h.commitTerm)
  }
}
