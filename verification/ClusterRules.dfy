/** What the rules of the peers mean for runs. */
module ClusterRules {
  import opened RaftTypes
  import opened RaftServer
  import opened PeerRules
  import opened CommitRule
  import opened Cluster
  import opened History
  import opened Invariants
  import opened Growth
  import opened Quorums
  import opened Runs

  ghost predicate OthersSame(c: State, c': State, p: nat) {
    |c'.servers| == |c.servers| && forall q :: 0 <= q < |c.servers| && q != p ==> c'.servers[q] == c.servers[q]
  }

  /** One RequestVote call to each other peer, and no other call is touched. */
  ghost predicate AsksAll(c: State, c': State, p: nat) {
    var s := c.servers;
    && p < |s|
    && (forall q: nat | q < |s| && q != p :: Asked(c, c', p, q))
    && (forall key | key in c'.votes
          && (key.src != p || key.term != s[p].currentTerm || key.dst == p || key.dst >= |s|) ::
          key in c.votes && c'.votes[key] == c.votes[key])
    && (forall key | key in c.votes :: key in c'.votes)
  }

  ghost predicate Asked(c: State, c': State, p: nat, q: nat)
    requires p < |c.servers|
  {
    var key := VoteKey(p, q, c.servers[p].currentTerm);
    && p < |c'.servers| && key in c'.votes && c'.votes[key].status.VoteWaiting?
    && LaunchRule(c.servers[p], p, c'.servers[p], c'.votes[key].args)
  }

  /** A step is one peer keeping its rule: nobody else changes, of the messages only the one that the step is
      about, and `sent` is what goes to the peer's applyCh. */
  ghost predicate StepRule(c: State, step: Step, c': State, sent: seq<ApplyMsg>) {
    var n := |c.servers|;
    (!step.StepAppendEntries? && !step.StepAppendReply? ==> sent == []) &&
    match step
    case StepTimeout(p) =>
      p < n && OthersSame(c, c', p) && TimeoutRule(c.servers[p], p, c'.servers[p])
      && c'.votes == c.votes && c'.appends == c.appends
    case StepLaunch(p) =>
      p < n && OthersSame(c, c', p) && c'.servers[p] == c.servers[p].(agreed := 1, due := false)
      && AsksAll(c, c', p) && c'.appends == c.appends
    case StepRequestVote(key) =>
      && key.dst < n && OthersSame(c, c', key.dst) && key in c.votes && key in c'.votes
      && c'.votes[key].status.VoteReplied?
      && VoteRule(c.servers[key.dst], c.votes[key].args, c'.servers[key.dst], c'.votes[key].status.reply)
      && c'.votes == c.votes[key := c.votes[key].(status := c'.votes[key].status)] && c'.appends == c.appends
    case StepVoteReply(key) =>
      && key.src < n && OthersSame(c, c', key.src) && key in c.votes && c.votes[key].status.VoteReplied?
      && VoteReplyRule(c.servers[key.src], n, c.votes[key].args, c.votes[key].status.reply, c'.servers[key.src])
      && c'.votes == c.votes[key := c.votes[key].(status := VoteDone)] && c'.appends == c.appends
    case StepStart(p, command) =>
      p < n && OthersSame(c, c', p) && StartRule(c.servers[p], command, c'.servers[p])
      && c'.votes == c.votes && c'.appends == c.appends
    case StepBuild(p, peer) =>
      && p < n && OthersSame(c, c', p) && |c'.appends| == |c.appends| + 1
      && var call := c'.appends[|c.appends|];
         && call.src == p && call.dst == peer && call.status.AppendWaiting?
         && BuildRule(c.servers[p], p, peer, c'.servers[p], call.args)
         && c'.appends == c.appends + [call] && c'.votes == c.votes
    case StepAppendEntries(id) =>
      && id < |c.appends| == |c'.appends| && c.appends[id].dst < n && OthersSame(c, c', c.appends[id].dst)
      && c'.appends[id].status.AppendReplied?
      && var p := c.appends[id].dst;
         && AppendRule(c.servers[p], c.appends[id].args, c'.servers[p], c'.appends[id].status.reply, sent)
         && c'.appends == c.appends[id := c.appends[id].(status := c'.appends[id].status)] && c'.votes == c.votes
    case StepAppendReply(id) =>
      && id < |c.appends| && c.appends[id].src < n && OthersSame(c, c', c.appends[id].src)
      && c.appends[id].status.AppendReplied?
      && var call, p := c.appends[id], c.appends[id].src;
         && AppendReplyRule(c.servers[p], p, call.dst, call.args, call.status.reply, c'.servers[p], sent)
         && c'.appends == c.appends[id := call.(status := AppendDone)] && c'.votes == c.votes
    case StepCrash(p) =>
      p < n && OthersSame(c, c', p) && BootRule(c.servers[p].disk, c'.servers[p])
      && c'.votes == c.votes && c'.appends == c.appends
  }

  lemma LaunchStepRule(c: State, p: nat)
    requires Enabled(c, StepLaunch(p))
    ensures StepRule(c, StepLaunch(p), Apply(c, StepLaunch(p)), [])
  {
    var s, c' := c.servers[p], Apply(c, StepLaunch(p));
    LaunchKeepsRule(s, p);
    var asked := NewVotes(|c.servers|, p, LaunchArgs(s, p));
    forall q: nat | q < |c.servers| && q != p ensures Asked(c, c', p, q) {
      assert VoteKey(p, q, s.currentTerm) in asked;
    }
  }

  lemma StepKeepsRule(c: State, step: Step)
    requires Enabled(c, step) && InRange(c, step)
    ensures StepRule(c, step, Apply(c, step), Output(c, step))
  {
    hide VoteRule, TermRule, VoteReplyRule, AppendRule, AppendReplyRule, AsksAll, HandleVoteReply, AppendEntries;
    hide HandleAppendReply, RequestVote, AppendReplyOutput, AppendOutput;
    match step
    case StepTimeout(p) => TimeoutKeepsRule(c.servers[p], p);
    case StepLaunch(p) => LaunchStepRule(c, p);
    case StepRequestVote(key) => RequestVoteKeepsRule(c.servers[key.dst], c.votes[key].args);
    case StepVoteReply(key) =>
      VoteReplyKeepsRule(c.servers[key.src], |c.servers|, c.votes[key].args, c.votes[key].status.reply);
    case StepStart(p, command) => StartKeepsRule(c.servers[p], command);
    case StepBuild(p, peer) => BuildKeepsRule(c.servers[p], p, peer);
    case StepAppendEntries(id) => AppendEntriesKeepsRule(c.servers[c.appends[id].dst], c.appends[id].args);
    case StepAppendReply(id) =>
      var call := c.appends[id];
      AppendReplyKeepsRule(c.servers[call.src], call.src, |c.servers|, call.dst, call.args, call.status.reply);
    case StepCrash(p) => BootKeepsRule(c.servers[p].disk);
  }

  /** In every run every step keeps the rule of its kind, and sends what its rule says. */
  lemma RunsKeepRules(run: Run, n: nat, i: nat)
    requires IsRun(run, n) && i < |run.steps|
    ensures StepRule(run.states[i], run.steps[i], run.states[i + 1], OutputAt(run, n, i))
  {
    hide HistAt, Inv, Record, Grows, Apply, StepRule;
    StepAt(run, n, i);
    StepKeepsRule(run.states[i], run.steps[i]);
  }

  /** What may happen next: the network may deliver any call that waits and any reply that is there, whatever
      the peer concerned is doing; any peer may crash or be given a command; any peer may time out, and is due
      to ask for votes after that; and a leader may build a message for any other peer. */
  ghost predicate Open(c: State, step: Step) {
    match step
    case StepTimeout(p) => p < |c.servers| && !c.servers[p].due
    case StepLaunch(p) => p < |c.servers| && c.servers[p].due
    case StepRequestVote(key) => key in c.votes && c.votes[key].status.VoteWaiting?
    case StepVoteReply(key) => key in c.votes && c.votes[key].status.VoteReplied?
    case StepStart(p, _) => p < |c.servers|
    case StepBuild(p, peer) => p < |c.servers| && peer < |c.servers| && p != peer && c.servers[p].role == Leader
    case StepAppendEntries(id) => id < |c.appends| && c.appends[id].status.AppendWaiting?
    case StepAppendReply(id) => id < |c.appends| && c.appends[id].status.AppendReplied?
    case StepCrash(p) => p < |c.servers|
  }

  /** No run gets stuck on what its environment does: whatever may happen next, the run goes on with it, in
      range, and every peer keeps its rule. */
  lemma GoesOn(run: Run, n: nat, step: Step) returns (run': Run)
    requires IsRun(run, n) && Open(run.states[|run.states| - 1], step)
    ensures IsRun(run', n) && run'.steps == run.steps + [step] && |run'.states| == |run.states| + 1
    ensures run.states <= run'.states
    ensures StepRule(run.states[|run.states| - 1], step, run'.states[|run.states|], OutputAt(run', n, |run.steps|))
  {
    hide Apply, StepRule, Enabled, InRange, HistAt, Inv, Open;
    var c := run.states[|run.states| - 1];
    OpenIsEnabled(c, HistAt(run, n, |run.states| - 1), step);
    run' := Run(run.states + [Apply(c, step)], run.steps + [step]);
    OneMore(run, run', n);
    RunsKeepRules(run', n, |run.steps|);
  }

  lemma OneMore(run: Run, run': Run, n: nat)
    requires IsRun(run, n) && run.states <= run'.states && run.steps <= run'.steps
    requires |run'.states| == |run.states| + 1 && |run'.steps| == |run.steps| + 1
    requires Next(run'.states[|run.steps|], run'.steps[|run.steps|], run'.states[|run.states|])
    ensures IsRun(run', n)
  {
    hide Next;
    forall j | 0 <= j < |run'.steps| ensures Next(run'.states[j], run'.steps[j], run'.states[j + 1]) {
      assert j < |run.steps| ==> Next(run.states[j], run.steps[j], run.states[j + 1]);
    }
  }

  lemma OpenIsEnabled(c: State, h: Hist, step: Step)
    requires Inv(c, h) && Open(c, step)
    ensures Enabled(c, step) && InRange(c, step)
  {
    hide HistOk, LogOk, VotedForOk, CandidateOk, DiskOk, Growing, Grows;
    match step
    case StepRequestVote(key) => assert VoteCallOk(h, key, c.votes[key]);
    case StepVoteReply(key) => assert VoteCallOk(h, key, c.votes[key]);
    case StepBuild(p, peer) => assert ServerOk(h, p, c.servers[p]);
    case StepAppendEntries(id) => assert AppendCallOk(h, c.appends[id]);
    case StepAppendReply(id) =>
      assert AppendCallOk(h, c.appends[id]) && ServerOk(h, c.appends[id].src, c.servers[c.appends[id].src]);
    case _ =>
  }

  /** The reply that a step hands to the peer that asked. */
  ghost predicate HearsTerm(c: State, step: Step, p: nat, term: nat) {
    match step
    case StepVoteReply(key) =>
      key.src == p && key in c.votes && c.votes[key].status.VoteReplied? && c.votes[key].status.reply.term == term
    case StepAppendReply(id) =>
      && id < |c.appends| && c.appends[id].src == p && c.appends[id].status.AppendReplied?
      && c.appends[id].status.reply.term == term
    case _ => false
  }

  /** After a reply the asker's term is at least the reply's; a higher one has made it a saved follower. */
  lemma RepliesAreHeard(run: Run, n: nat, i: nat, p: nat, term: nat)
    requires IsRun(run, n) && i < |run.steps| && HearsTerm(run.states[i], run.steps[i], p, term)
    ensures p < |run.states[i].servers| && p < |run.states[i + 1].servers|
    ensures
      var s, s' := run.states[i].servers[p], run.states[i + 1].servers[p];
      && s'.currentTerm >= term
      && (term > s.currentTerm ==>
            && s'.currentTerm == term && s'.role == Follower && s'.votedFor == -1 && s'.logs == s.logs
            && s'.disk == Some(Saved(term, -1, s.logs)))
  {
    RunsKeepRules(run, n, i);
  }

  // ---- who has voted ----

  /** Step j brings the vote of q to p, a candidate of the term. */
  ghost predicate GrantAt(run: Run, j: nat, p: nat, term: nat, q: nat) {
    var key := VoteKey(p, q, term);
    && j < |run.steps| && j < |run.states| && run.steps[j] == StepVoteReply(key)
    && p < |run.states[j].servers| && key in run.states[j].votes && run.states[j].votes[key].status.VoteReplied?
    && run.states[j].votes[key].status.reply.voteGranted && run.states[j].votes[key].status.reply.term <= term
    && run.states[j].servers[p].currentTerm == term && run.states[j].servers[p].role == Candidate
  }

  /** q has voted for p in the term before state i: it is p itself, or its vote has arrived. */
  ghost predicate HasVoted(run: Run, i: nat, p: nat, term: nat, q: nat) {
    q == p || exists j: nat :: j < i && GrantAt(run, j, p, term, q)
  }

  ghost function VotesFor(run: Run, n: nat, i: nat, p: nat, term: nat): set<nat> {
    set q: nat | q < n && HasVoted(run, i, p, term, q)
  }

  lemma GrantHasRun(run: Run, n: nat, j: nat, p: nat, term: nat, q: nat)
    requires IsRun(run, n) && GrantAt(run, j, p, term, q)
    ensures Ballot(p, term) in HistAt(run, n, j).ran
    ensures Counts(run.states[j].servers[p], run.states[j].votes[VoteKey(p, q, term)].args,
                   run.states[j].votes[VoteKey(p, q, term)].status.reply)
  {
    hide HistAt, HistOk, ServersOk, AppendsOk, Growing;
    assert VoteCallOk(HistAt(run, n, j), VoteKey(p, q, term), run.states[j].votes[VoteKey(p, q, term)]);
  }

  lemma {:induction false} RanLater(run: Run, n: nat, j: nat, i: nat, b: Ballot)
    requires IsRun(run, n) && j <= i < |run.states| && b in HistAt(run, n, j).ran
    ensures b in HistAt(run, n, i).ran
    decreases i
  {
    hide HistAt, Inv, Record, Apply, ReignsGrow, AcksGrow, TermsGrow;
    if j < i {
      RanLater(run, n, j, i - 1, b);
      StepAt(run, n, i - 1);
    }
  }

  lemma GrantRanLater(run: Run, n: nat, i: nat, p: nat, term: nat, q: nat)
    requires IsRun(run, n) && i < |run.states|
    ensures forall j: nat :: j < i && GrantAt(run, j, p, term, q) ==> Ballot(p, term) in HistAt(run, n, i).ran
  {
    hide HistAt, Inv, GrantAt;
    forall j: nat | j < i && GrantAt(run, j, p, term, q) ensures Ballot(p, term) in HistAt(run, n, i).ran {
      GrantHasRun(run, n, j, p, term, q);
      RanLater(run, n, j, i, Ballot(p, term));
    }
  }

  /** What a step does to the voters that are counted for a candidate. */
  lemma CountedStep(c: State, h: Hist, step: Step, b: Ballot)
    requires Inv(c, h) && Enabled(c, step) && InRange(c, step)
    ensures
      var counted' := CountedAfter(c, h, step);
      if step == StepLaunch(b.server) && c.servers[b.server].currentTerm == b.term then
        b !in h.ran && b in counted' && counted'[b] == {b.server}
      else if step.StepVoteReply? && step.key.src == b.server && step.key.term == b.term
              && Counts(c.servers[b.server], c.votes[step.key].args, c.votes[step.key].status.reply) then
        && b in counted' && c.servers[b.server].currentTerm == b.term && c.servers[b.server].role == Candidate
        && c.votes[step.key].status.reply.term <= b.term && c.votes[step.key].status.reply.voteGranted
        && counted'[b] == (if b in h.counted then h.counted[b] else {}) + {step.key.dst}
        && b in h.counted
      else (b in counted' <==> b in h.counted) && (b in h.counted ==> counted'[b] == h.counted[b])
  {
    hide HistOk, AppendsOk, Growing, LogOk, LeaderOk, VotedForOk, DiskOk;
    match step
    case StepLaunch(p) => assert ServerOk(h, p, c.servers[p]);
    case StepVoteReply(key) =>
      assert ServerOk(h, key.src, c.servers[key.src]) && VoteCallOk(h, key, c.votes[key]);
    case _ =>
  }

  /** The voters that the history counts are those whose votes have arrived. */
  lemma {:induction false} CountedMeans(run: Run, n: nat, i: nat, p: nat, term: nat, q: nat)
    requires IsRun(run, n) && i < |run.states|
    ensures
      var h, b := HistAt(run, n, i), Ballot(p, term);
      if b in h.counted then q in h.counted[b] <==> HasVoted(run, i, p, term, q)
      else forall j: nat :: j < i ==> !GrantAt(run, j, p, term, q)
  {
    hide HistAt, Inv, Record, Grows, GrantAt, CountedAfter, InRange, Counts;
    if i > 0 {
      var b, step, c := Ballot(p, term), run.steps[i - 1], run.states[i - 1];
      CountedMeans(run, n, i - 1, p, term, q);
      StepAt(run, n, i - 1);
      CountedIs(run, n, i - 1);
      CountedStep(c, HistAt(run, n, i - 1), step, b);
      GrantIff(run, n, i - 1, p, term, q);
      if step == StepLaunch(p) && c.servers[p].currentTerm == term {
        GrantRanLater(run, n, i - 1, p, term, q);
      }
      HasVotedStep(run, i, p, term, q);
    } else {
      NoCounted(run, n);
    }
  }

  lemma NoCounted(run: Run, n: nat)
    requires IsRun(run, n)
    ensures HistAt(run, n, 0).counted == map[]
  {
    InitialInv(n);
  }

  lemma CountedIs(run: Run, n: nat, i: nat)
    requires IsRun(run, n) && i < |run.steps|
    ensures Enabled(run.states[i], run.steps[i])
    ensures HistAt(run, n, i + 1).counted == CountedAfter(run.states[i], HistAt(run, n, i), run.steps[i])
  {
    hide HistAt, Inv, Grows, CountedAfter;
    StepAt(run, n, i);
  }

  lemma GrantIff(run: Run, n: nat, j: nat, p: nat, term: nat, q: nat)
    requires IsRun(run, n) && j < |run.steps| && Enabled(run.states[j], run.steps[j])
    ensures
      var step, c := run.steps[j], run.states[j];
      GrantAt(run, j, p, term, q) <==>
      step == StepVoteReply(VoteKey(p, q, term))
      && Counts(c.servers[p], c.votes[step.key].args, c.votes[step.key].status.reply)
  {
    hide HistAt, HistOk, ServersOk, AppendsOk, Growing;
    var step := run.steps[j];
    if step == StepVoteReply(VoteKey(p, q, term)) {
      assert VoteCallOk(HistAt(run, n, j), step.key, run.states[j].votes[step.key]);
    }
  }

  lemma HasVotedStep(run: Run, i: nat, p: nat, term: nat, q: nat)
    requires 0 < i
    ensures HasVoted(run, i, p, term, q) <==> HasVoted(run, i - 1, p, term, q) || GrantAt(run, i - 1, p, term, q)
  {
    hide GrantAt;
    if HasVoted(run, i, p, term, q) && q != p {
      var j: nat :| j < i && GrantAt(run, j, p, term, q);
      assert j == i - 1 || j < i - 1;
    }
  }

  /** When a granted vote of its term reaches a candidate, it leads afterwards if and only if a majority has
      voted for it by then, itself included: no majority goes uncounted, and less than one makes no leader. */
  lemma MajorityDecides(run: Run, n: nat, i: nat, p: nat, term: nat, q: nat)
    requires IsRun(run, n) && i < |run.steps| && GrantAt(run, i, p, term, q)
    ensures p < |run.states[i + 1].servers|
    ensures run.states[i + 1].servers[p].role == Leader <==> 2 * |VotesFor(run, n, i + 1, p, term)| > n
    ensures run.states[i + 1].servers[p].role in {Candidate, Leader}
    ensures run.states[i + 1].servers[p].agreed == |VotesFor(run, n, i + 1, p, term)|
  {
    hide Record, Grows, Inv, HistAt, HasVoted, VotesFor, GrantAt, StepRule;
    var b := Ballot(p, term);
    GrantCounts(run, n, i, p, term, q);
    var h, h' := HistAt(run, n, i), HistAt(run, n, i + 1);
    forall v: nat ensures v in h'.counted[b] <==> v in VotesFor(run, n, i + 1, p, term) {
      CountedMeans(run, n, i + 1, p, term, v);
      VotesForMeans(run, n, i + 1, p, term, v);
      CountedBelow(run, n, i + 1, p, term, v);
    }
    assert h'.counted[b] == VotesFor(run, n, i + 1, p, term);
  }

  lemma VotesForMeans(run: Run, n: nat, i: nat, p: nat, term: nat, v: nat)
    ensures v in VotesFor(run, n, i, p, term) <==> v < n && HasVoted(run, i, p, term, v)
  {
    hide HasVoted;
  }

  lemma {:induction false} CountedBelow(run: Run, n: nat, i: nat, p: nat, term: nat, v: nat)
    requires IsRun(run, n) && i < |run.states|
    ensures Ballot(p, term) in HistAt(run, n, i).counted && v in HistAt(run, n, i).counted[Ballot(p, term)] ==> v < n
  {
    hide HistAt, HistOk, Record, Grows, CountedAfter, Counts, InRange, ServersOk, AppendsOk, Growing;
    if i > 0 {
      CountedBelow(run, n, i - 1, p, term, v);
      SameSize(run, n, i - 1);
      CountedIs(run, n, i - 1);
      StepAt(run, n, i - 1);
      CountedStep(run.states[i - 1], HistAt(run, n, i - 1), run.steps[i - 1], Ballot(p, term));
      if run.steps[i - 1].StepVoteReply? {
        var key := run.steps[i - 1].key;
        assert VoteCallOk(HistAt(run, n, i - 1), key, run.states[i - 1].votes[key]);
      }
    } else {
      NoCounted(run, n);
    }
  }

  /** The counted vote, in the state before and after. */
  lemma GrantCounts(run: Run, n: nat, i: nat, p: nat, term: nat, q: nat)
    requires IsRun(run, n) && i < |run.steps| && GrantAt(run, i, p, term, q)
    ensures p < |run.states[i + 1].servers|
    ensures
      var h', b, s' := HistAt(run, n, i + 1), Ballot(p, term), run.states[i + 1].servers[p];
      && b in h'.counted && s'.agreed == |h'.counted[b]|
      && (s'.role == Leader <==> 2 * |h'.counted[b]| > n) && (s'.role == Leader || s'.role == Candidate)
  {
    hide HistAt, Record, Grows, HistOk, AppendsOk, Growing, LogOk, LeaderOk, VotedForOk, DiskOk, CountedAfter;
    var c, h, b := run.states[i], HistAt(run, n, i), Ballot(p, term);
    var key := VoteKey(p, q, term);
    SameSize(run, n, i);
    RunsKeepRules(run, n, i);
    CountedIs(run, n, i);
    assert ServerOk(h, p, c.servers[p]) && VoteCallOk(h, key, c.votes[key]);
    GrantHasRun(run, n, i, p, term, q);
    CountedStep(c, h, run.steps[i], b);
  }
}
