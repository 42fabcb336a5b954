/**
 The peer as the program has it: an object whose methods update its fields in place, one method per
 locked region. Each method is proved to do to the fields what its function in RaftServer does to the value.
 */
module RaftPeer {
  import opened RaftTypes
  import opened RaftServer
  import opened Persisters
  import opened PeerRules

  class Raft {
    const me: nat
    const peers: nat
    const persister: Persister

    var currentTerm: nat
    var votedFor: int
    var logs: Log
    var commitIndex: nat
    var nextIndex: seq<nat>
    var matchIndex: seq<nat>
    var role: Role
    var agreed: nat
    var due: bool

    function View(): Server
      reads this, persister
    {
      Server(currentTerm, votedFor, logs, commitIndex, nextIndex, matchIndex, role, agreed, due, persister.raftstate)
    }

    /** Make: a fresh peer reads what the persister holds. */
    constructor Make(me: nat, peers: nat, persister: Persister)
      ensures this.me == me && this.peers == peers && this.persister == persister
      ensures View() == Boot(persister.raftstate) && BootRule(persister.raftstate, View())
    {
      this.me, this.peers, this.persister := me, peers, persister;
      currentTerm, votedFor, logs := 0, 0, [];
      commitIndex, nextIndex, matchIndex, role, agreed, due := 0, [], [], Follower, 0, false;
      new;
      var data := persister.ReadRaftState();
      ReadPersist(data);
    }

    method PersistState()
      modifies persister
      ensures View() == Persist(old(View()))
    {
      persister.SaveRaftState(Some(Saved(currentTerm, votedFor, logs)));
    }

    /** An empty persister leaves the fields as they are. */
    method ReadPersist(data: Option<Saved>)
      modifies this
      ensures View() == if data.None? then old(View()) else
                          old(View()).(currentTerm := data.value.currentTerm, votedFor := data.value.votedFor,
                                       logs := data.value.logs)
    {
      if data.Some? {
        currentTerm, votedFor, logs := data.value.currentTerm, data.value.votedFor, data.value.logs;
      }
    }

    method ElectionTimeout()
      modifies this, persister
      ensures View() == Timeout(old(View()), me) && TimeoutRule(old(View()), me, View())
    {
      currentTerm := currentTerm + 1;
      votedFor := me;
      role := Candidate;
      due := true;
      PersistState();
    }

    /** doVote: one call for each other peer, all with the same arguments. */
    method DoVote() returns (calls: map<nat, VoteArgs>)
      modifies this
      ensures View() == Launch(old(View()))
      ensures forall q: nat :: q in calls <==> q < peers && q != me
      ensures forall q :: q in calls ==> calls[q] == LaunchArgs(old(View()), me)
      ensures forall q :: q in calls ==> LaunchRule(old(View()), me, View(), calls[q])
    {
      LaunchKeepsRule(View(), me);
      agreed, due := 1, false;
      var index := |logs|;
      var term := 0;
      if index != 0 {
        term := logs[index - 1].term;
      }
      calls := map[];
      var i := 0;
      while i < peers
        invariant i <= peers
        invariant forall q: nat :: q in calls <==> q < i && q != me
        invariant forall q :: q in calls ==> calls[q] == LaunchArgs(old(View()), me)
      {
        if i != me {
          calls := calls[i := VoteArgs(currentTerm, me, index, term)];
        }
        i := i + 1;
      }
    }

    method HandleRequestVote(args: VoteArgs) returns (reply: VoteReply)
      modifies this, persister
      ensures View() == RequestVote(old(View()), args).0
      ensures reply == RequestVote(old(View()), args).1
      ensures VoteRule(old(View()), args, View(), reply)
    {
      RequestVoteKeepsRule(View(), args);
      hide VoteRule;
      var granted := false;
      if args.term >= currentTerm {
        if args.term > currentTerm {
          role := Follower;
          votedFor := -1;
          currentTerm := args.term;
        }
        var lastLogTerm := 0;
        if |logs| > 0 {
          lastLogTerm := logs[|logs| - 1].term;
        }
        if (votedFor == -1 || votedFor == args.candidateId)
           && (lastLogTerm < args.lastLogTerm || (lastLogTerm == args.lastLogTerm && |logs| <= args.lastLogIndex)) {
          granted := true;
          role := Follower;
          votedFor := args.candidateId;
        }
      }
      PersistState();
      reply := VoteReply(currentTerm, granted);
    }

    method SeeReplyTerm(term: nat)
      modifies this, persister
      ensures View() == SeeTerm(old(View()), term) && TermRule(old(View()), term, View())
      ensures term > old(currentTerm) ==>
                && currentTerm == term && role == Follower && votedFor == -1 && logs == old(logs)
                && persister.raftstate == Some(Saved(term, -1, logs))
      ensures term <= old(currentTerm) ==> View() == old(View())
    {
      if term > currentTerm {
        currentTerm := term;
        role := Follower;
        votedFor := -1;
        PersistState();
      }
    }

    /** What the goroutine of one peer does when its RequestVote call returns. */
    method VoteReturned(args: VoteArgs, ok: bool, reply: VoteReply)
      modifies this, persister
      ensures View() == if ok then HandleVoteReply(old(View()), peers, args, reply) else old(View())
      ensures ok ==> VoteReplyRule(old(View()), peers, args, reply, View())
      ensures ok ==> currentTerm >= reply.term && (reply.term > old(currentTerm) ==> role == Follower)
    {
      VoteReplyKeepsRule(View(), peers, args, reply);
      hide VoteReplyRule, TermRule;
      if ok {
        SeeReplyTerm(reply.term);
      }
      if ok && reply.voteGranted && args.term == currentTerm && role == Candidate {
        agreed := agreed + 1;
        if agreed * 2 > peers {
          role := Leader;
          ResetIndexes();
          ghost var next := |logs| + 1;
          assert nextIndex == seq(peers, k => next) && matchIndex == seq(peers, k => 0);
          PersistState();
        }
      }
    }

    /** The arrays of a new leader. */
    method ResetIndexes()
      modifies this`nextIndex, this`matchIndex
      ensures |nextIndex| == |matchIndex| == peers
      ensures forall k :: 0 <= k < peers ==> nextIndex[k] == |logs| + 1 && matchIndex[k] == 0
    {
      nextIndex := [];
      matchIndex := [];
      var i := 0;
      while i < peers
        invariant i <= peers && |nextIndex| == |matchIndex| == i
        invariant forall k :: 0 <= k < i ==> nextIndex[k] == |logs| + 1 && matchIndex[k] == 0
      {
        nextIndex := nextIndex + [|logs| + 1];
        matchIndex := matchIndex + [0];
        i := i + 1;
      }
    }

    method StartCommand(command: Command) returns (index: nat, term: nat, isLeader: bool)
      modifies this, persister
      ensures View() == Start(old(View()), command)
      ensures index == |old(logs)| + 1 && term == old(currentTerm) && isLeader == (old(role) == Leader)
      ensures isLeader ==> |logs| == index && logs[index - 1] == Entry(command, term)
      ensures StartRule(old(View()), command, View())
    {
      index := |logs| + 1;
      if role == Leader {
        logs := logs + [Entry(command, currentTerm)];
        PersistState();
      }
      term, isLeader := currentTerm, role == Leader;
    }

    /** The locked region that builds the message for one peer. */
    method BuildAppend(peer: nat) returns (args: AppendArgs)
      requires BuildInRange(View(), peer)
      modifies this
      ensures args == BuildArgs(old(View()), me, peer)
      ensures View() == Build(old(View()), me, peer) && BuildRule(old(View()), me, peer, View(), args)
    {
      BuildKeepsRule(View(), me, peer);
      var index := nextIndex[peer];
      var term := 0;
      var entries := [];
      if |logs| >= index {
        entries := entries + logs[index - 1..];
      }
      if index > 1 {
        term := logs[index - 2].term;
      }
      args := AppendArgs(currentTerm, me, index - 1, term, entries, commitIndex);
      nextIndex := nextIndex[peer := args.prevLogIndex + |entries| + 1];
    }

    /** AppendEntries; `sent` is what goes to applyCh. */
    method HandleAppendEntries(args: AppendArgs) returns (reply: AppendReply, sent: seq<ApplyMsg>)
      requires AppendInRange(View(), args)
      modifies this, persister
      ensures View() == AppendEntries(old(View()), args).0
      ensures reply == AppendEntries(old(View()), args).1
      ensures sent == AppendOutput(old(View()), args)
      ensures AppendRule(old(View()), args, View(), reply, sent)
    {
      AppendEntriesKeepsRule(View(), args);
      hide AppendRule;
      var success, len := false, 0;
      sent := [];
      if args.term >= currentTerm {
        success := true;
        currentTerm := args.term;
        role := Follower;
        votedFor := args.leaderId;
        if args.prevLogIndex > 0 {
          if |logs| >= args.prevLogIndex && logs[args.prevLogIndex - 1].term == args.prevLogTerm {
            success := true;
          } else {
            success := false;
            len := |logs|;
          }
        }
      }
      reply := AppendReply(currentTerm, success, len);
      assert success == Accepts(old(View()), args);
      if success {
        logs := logs[..args.prevLogIndex];
        logs := logs + args.entries;
        ghost var accepted := View();
        var iter := commitIndex;
        while iter < args.leaderCommit
          invariant View() == accepted
          invariant commitIndex <= iter <= Larger(commitIndex, args.leaderCommit)
          invariant commitIndex < args.leaderCommit ==> args.leaderCommit <= |logs|
          invariant sent == Batch(logs, commitIndex, iter)
        {
          sent := sent + [ApplyMsg(iter + 1, logs[iter].command)];
          BatchGrows(logs, commitIndex, iter);
          iter := iter + 1;
        }
        commitIndex := args.leaderCommit;
      }
      PersistState();
    }

    /** What the goroutine of one peer does when its AppendEntries call returns. */
    method AppendReturned(peer: nat, args: AppendArgs, ok: bool, reply: AppendReply) returns (sent: seq<ApplyMsg>)
      requires AppendReplyInRange(View(), peers, peer)
      modifies this, persister
      ensures View() == if ok then HandleAppendReply(old(View()), me, peers, peer, args, reply) else old(View())
      ensures sent == if ok then AppendReplyOutput(old(View()), me, peers, peer, args, reply) else []
      ensures ok ==> AppendReplyRule(old(View()), me, peer, args, reply, View(), sent)
      ensures ok ==> currentTerm >= reply.term && (reply.term > old(currentTerm) ==> role == Follower)
    {
      AppendReplyKeepsRule(View(), me, peers, peer, args, reply);
      hide VoteRule, AppendReplyRule;
      sent := [];
      if ok {
        SeeReplyTerm(reply.term);
        if role == Leader && !reply.success {
          nextIndex := nextIndex[peer := args.prevLogIndex];
          if reply.len < args.prevLogIndex {
            nextIndex := nextIndex[peer := reply.len + 1];
          }
          nextIndex := nextIndex[peer := 1];
        }
      }
      if ok && reply.success && args.term == currentTerm && role == Leader {
        matchIndex := matchIndex[peer := args.prevLogIndex + |args.entries|];
        sent := AdvanceCommit();
      }
    }

    /** The commit loop: it runs over the log from the commit index on, and applies as it goes. */
    method AdvanceCommit() returns (sent: seq<ApplyMsg>)
      requires |matchIndex| == peers
      modifies this`commitIndex
      ensures View() == old(View()).(commitIndex := commitIndex)
      ensures commitIndex == CommitScan(old(View()), me, old(commitIndex), old(commitIndex))
      ensures old(commitIndex) < commitIndex ==> commitIndex <= |logs|
      ensures sent == Batch(logs, old(commitIndex), commitIndex)
    {
      ghost var s := View();
      sent := [];
      var iter := commitIndex;
      while iter < |logs|
        invariant old(commitIndex) <= commitIndex <= iter
        invariant old(commitIndex) < commitIndex ==> commitIndex <= |logs|
        invariant CommitScan(s, me, s.commitIndex, s.commitIndex) == CommitScan(s, me, iter, commitIndex)
        invariant sent == Batch(logs, s.commitIndex, commitIndex)
      {
        if logs[iter].term >= currentTerm {
          var count := CountMatching(iter);
          if count * 2 > peers {
            var i := commitIndex;
            while i <= iter
              invariant s.commitIndex <= commitIndex == i <= iter + 1
              invariant sent == Batch(logs, s.commitIndex, i)
            {
              commitIndex := i + 1;
              sent := sent + [ApplyMsg(i + 1, logs[i].command)];
              BatchGrows(logs, s.commitIndex, i);
              i := i + 1;
            }
          } else {
            break;
          }
        }
        iter := iter + 1;
      }
    }

    method CountMatching(iter: nat) returns (count: nat)
      requires |matchIndex| == peers
      ensures count == 1 + CountFrom(matchIndex, me, iter, 0)
    {
      count := 1;
      var j := 0;
      while j < peers
        invariant j <= peers
        invariant count + CountFrom(matchIndex, me, iter, j) == 1 + CountFrom(matchIndex, me, iter, 0)
      {
        if j != me {
          if matchIndex[j] > iter {
            count := count + 1;
          }
        }
        j := j + 1;
      }
    }
  }

  function Larger(a: nat, b: nat): nat {
    if a < b then b else a
  }

  lemma BatchGrows(log: Log, from: nat, to: nat)
    requires from <= to < |log|
    ensures Batch(log, from, to + 1) == Batch(log, from, to) + [ApplyMsg(to + 1, log[to].command)]
  {
  }
}
