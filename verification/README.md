# A model of the Raft key/value service, its network, its persister and the shard store

The project models four parts of the repository and proves what they are for.

**1. Raft (`src/raft/raft.go`).** `RaftServer.dfy` gives one peer as a value and each locked region of the
program as a function on it. `RaftPeer.dfy` gives the peer as the program has it, an object whose methods
update its fields with the program's own loops, and proves each method against its function. `PeerRules.dfy`
states what each step has to do over the fields before and after, in the manner of Figure 2 of the Raft paper and
without those functions; functions and methods are both proved to keep these rules. `Cluster.dfy`
puts N peers on a network that loses, delays and reorders messages: every request is handled at most once,
every reply reaches the goroutine that asked at most once, and any peer may crash and restart between any two
steps. `ClusterRules.dfy` says what the rules mean for runs. `RaftTheorems.dfy` holds what is true in every run, `SafetyTheorems.dfy` and `Applied.dfy` what is true
when messages are handled in order, `OrderCondition.dfy` what that condition means, and `Reordering.dfy` a run
that shows what goes wrong without it. The code is not the textbook protocol: an accepted AppendEntries
truncates and appends without looking (280-282), it overwrites `votedFor` with the leader (265), a follower's
commit index can go down (290), and the zero value of `votedFor` is a real peer's number. So "one vote per
term" is not an invariant here. The proofs use the *first* vote that a peer casts in a term, and the longest
log it has accepted from a term's leader, both recorded in a history (`History.dfy`) beside the state.

**2. The key/value service (`src/kvraft`).** `KvReplay.dfy` gives the replay that a Get performs a meaning and
proves the claims made for it. `KvPeer.dfy` has the server and the clerk with their loops. `ClerkWorld.dfy` is
a state machine of clerks that resend until they are acknowledged, over an append-only log, and
`ClerkTheorems.dfy` and `ClerkWitness.dfy` say when each write takes effect exactly once and when it is lost.
`KvOnRaft.dfy` says what the handlers read from a peer, and `CommittedStory.dfy` joins this part to part 1: as a
run of Raft goes on, a story of the clerks goes on with landings only, its log the committed log of the run.

**3. Crash and acknowledgement (`src/labrpc/labrpc.go`, `src/raft/config.go`, `src/raft/persister.go`).**
`CrashProtocol.dfy` interleaves ProcessReq, handlers, crash1 and start1 lock by lock; `Harness.dfy` and
`Persister.dfy` are the network, the harness and the persister as objects, and `NetworkRefines.dfy` shows that
the network object does to its maps what the protocol does to its state.

**4. The shard store (`src/diskv/server.go`).** `ShardFiles.dfy` has each function as a list of file
operations that a crash may cut anywhere, also inside the writing of a file; `ShardStore.dfy` has the functions
as methods that perform these operations; `Base32.dfy` is section 6 of RFC 4648.

## Assumptions of the Raft model

- The test whether a reply carries a higher term (240, 306) is one step with the update that follows it. The
  code makes the test before it takes the lock.
- A reply that comes back passes through two locked regions, one that looks at its term (240-246, 307-312) and
  one that counts the vote or advances the commit index (460-480, 522-555). The model makes them one step. If the
  first region changes something, the term has risen above that of the request, and since terms never fall the
  second region then does nothing; if it changes nothing, it would change nothing later either.
- Building an AppendEntries (503-518) includes the test `role == 2` made at 497.
- The reset of `nextIndex` after a mismatch (314-321) is part of the step that handles the reply.
- The election timeout and the doVote after it are two steps, since the lock is released between them. A
  timeout may come in any role, since the test at 423 is made without the lock.
- A reply may also reach a peer that has restarted since it asked. In the program such replies go to a dead
  object; allowing them only adds runs.
- Where a step would index or slice out of range, the next state is left open. That no step ever does is a
  theorem (`NeverOutOfRange`), not an assumption.
- Only properties of `SafetyTheorems`, `Applied`, `KvOnRaft` and `CommittedStory` assume order, and they say
  so in their hypotheses: `NeverShrinks`, no follower accepts a message that reaches less far than one of the
  same term it has accepted before. Handling the messages of a leader in the order in which they were built
  implies it (`InOrderNeverShrinks`). It holds of a run if and only if no follower ever loses an entry
  that an earlier message of the same term installed (`OrderIsKeepingEntries`). The program does not
  enforce it: the TODO at src/raft/raft.go:524 says so, and src/labrpc/labrpc.go:33-34 says that calls overtake
  each other. `OvertakenHeartbeat` is the counterexample.

## Where the text and the code disagree

- src/kvraft/kvraft.md:223-224 proposes to ignore other keys during the replay. That gives the same value if
  the log is key-stable, and lets the same writes through only then (`ProjectionExact`);
  `IgnoringOtherKeysCanFail` is an input for which it gives another value.
- src/diskv/server.go:132 speaks of replacing an entire shard directory. The replacement is not atomic
  for a key that is in the old and the new state, and is for every other key (`ReplacedAtomically`); the errors
  of its puts are dropped (`DisKV.FileReplaceShard`).
- src/kvraft/kvraft.md:57 takes the index of a Get's log entry as a client id that no one else has. A Get is
  answered when the server has applied its index (src/kvraft/server.go:62), whoever's entry stands there. So two
  clerks can have one id, and then an acknowledged Append can be lost (`SharedIdLosesAppend`). `UuidsUnique` and
  `LandedExactly` say exactly when.
- src/kvraft/kvraft.md:94 says that a write is acknowledged when it is logged. The test (src/kvraft/server.go:128)
  only looks for an entry with the same name, key and value, not for the UUID. So a clerk that writes a value twice
  can be told twice that it succeeded although the second write never landed (`RepeatedAppendLost`).
  `AcknowledgedFound` is all that an acknowledgement says.
- src/labrpc/labrpc.go:302 says that an end is connected once in its lifetime. Connect does not check it, and
  the model does not assume it.

## Model

| member | source | states |
|---|---|---|
| RaftTheorems.ElectionSafety | src/raft/raft.go:174-215 | In every run, with loss, reordering and crashes, at most one server is ever leader in a term. |
| Steps.SecondMajority | src/raft/raft.go:444-484 | A second candidate of a term cannot collect a majority of first votes, although a peer may grant two candidates in one term after it has accepted a leader. |
| Steps.CountedVote | src/raft/raft.go:456-464 | A reply that counts comes from a voter that was not counted before and whose first vote in the term was for this candidate, so the shared counter is the size of a set of voters. |
| Steps.RequestVoteServer | src/raft/raft.go:174-215 | What a peer's votedFor says about first votes and leaders is still right after it has handled RequestVote. |
| RaftTheorems.LeaderAppendOnly | src/raft/raft.go:345-360 | While a term lasts the log of its leader only grows. |
| RaftTheorems.LogMatching | src/raft/raft.go:267-282 | In every run, two logs, or two versions of one log at different times, with the same term at an index are equal up to that index. |
| LogSteps.LogSorted | src/raft/raft.go:345-360 | Terms never decrease along a log. |
| LogSteps.AcceptCopies | src/raft/raft.go:267-282 | Prefix check, truncation and append together leave the leader's log up to the reach of the message. |
| RaftTheorems.AcceptedMessageCopiesLog | src/raft/raft.go:503-517 | An accepted message, however late, leaves the follower with exactly the log that the sender had when the message was built. |
| LogSteps.BuildOk | src/raft/raft.go:503-518 | A leader's message for a peer reaches to the end of its log, carries a true previous term, and never a commit index beyond its reach. |
| LogSteps.StepKeeps | src/raft/raft.go:174-555 | Every step of every kind is within range and keeps the invariants on servers, votes, messages and history. |
| RaftTheorems.TermsMonotone | src/raft/raft.go:183-187 | A server's term never decreases, restarts included. |
| RaftTheorems.PersistedMatchesMemory | src/raft/raft.go:111-131 | At any moment a restart would read back exactly the term, vote and log in memory, an empty persister reading as zeroes. |
| RaftTheorems.NeverOutOfRange | src/raft/raft.go:280-290 | No step of any run indexes or slices a log, nextIndex or matchIndex out of range. |
| RaftTheorems.Bounds | src/raft/raft.go:503-517 | In every state commitIndex <= len(logs), every message's LeaderCommit is within its reach, and a leader's nextIndex and matchIndex are within its log. |
| RaftTheorems.OutputConsecutive | src/raft/raft.go:283-290 | A step sends consecutive indexes from its commit index on, as many as the commit index rises. |
| RaftTheorems.GapFreeApply | src/raft/raft.go:283-290 | Within one incarnation the indexes sent on applyCh are always exactly 1..m, although the commit index can go down and entries are sent again. |
| RaftTheorems.BatchContinues | src/raft/raft.go:542-549 | Each batch is consecutive and starts at most one after what was sent before. |
| RaftTheorems.NextIndexStays | src/raft/raft.go:314-321 | After the reset nextIndex stays 1 until the next message is built, whatever else happens. |
| RaftTheorems.RepairBound | src/raft/raft.go:314-321 | After a mismatch the next message for the peer has PrevLogIndex 0 and the whole log, and any follower of that term or below accepts it and ends with the leader's log, whatever its log was. |
| CommitRule.CommitLoopIsFigure2 | src/raft/raft.go:527-553 | On sorted logs the incremental loop ends at the largest own-term N on a majority (self plus matchIndex >= N), and leaves the commit index exactly if there is none. |
| CommitRule.Blocked | src/raft/raft.go:541-552 | Once the majority test fails at an index, nothing above can be committed, so the break loses nothing. |
| RaftTheorems.CommitFollowsRule | src/raft/raft.go:523-553 | In every run a success reply of the leader's term, to a message with or without entries, moves matchIndex to the end of the message, and the commit index to the largest committable one, or leaves it. |
| SafetyTheorems.InOrderNeverShrinks | src/raft/raft.go:500-520 | Followers that handle a leader's messages in the order they were built never accept a shorter log of the same term after a longer one. |
| OrderCondition.OrderIsKeepingEntries | src/raft/raft.go:279-282 | The order condition holds of a run if and only if no accepted message takes from a follower an entry that an earlier message of the same term gave it. |
| Reordering.OvertakenHeartbeat | src/raft/raft.go:524-525 | For any two commands there is a run with one overtaken message, which breaks the order condition, in which two servers apply different commands at index 1, and in which the leader of term 2 has an empty log although the leader of term 1 has committed an entry of its own term. |
| SafetyTheorems.StateMachineSafety | src/raft/raft.go:279-292 | Under the order condition no two servers, and no two incarnations of one, ever apply different commands at the same index. |
| SafetyTheorems.StateMachineSafetyInOrder | src/raft/raft.go:527-553 | The same for all runs in which messages of one leader and term are handled in order. |
| SafetyTheorems.LeaderCompleteness | src/raft/raft.go:193-205 | Under the order condition everything that a leader has committed is in the log of every leader of a later term, at any time. |
| SafetyTheorems.CommitStepChoses | src/raft/raft.go:523-549 | A commit step is about an entry of the leader's own term that a majority holds at that moment. |
| SafetyTheorems.CommittedGrows | src/raft/raft.go:527-553 | Under the order condition the committed log of the cluster is append-only. |
| SafetyTheorems.CommitIndexInCommitted | src/raft/raft.go:290 | Under the order condition every server's log up to its commit index is a prefix of the one committed log. |
| SafetyTheorems.OutputCommitted | src/raft/raft.go:283-289 | Under the order condition whatever is sent on applyCh is in the committed log at that index. |
| Safety.RestrictionKeeps | src/raft/raft.go:193-205 | The election restriction works: a candidate that an up-to-date voter accepts has in its log everything of an earlier term that the voter helps to hold. |
| SafeSteps.ChosenCompare | src/raft/raft.go:523-549 | Two chosen prefixes, of any terms, are prefixes of one another. |
| SafeSteps.CommitExtends | src/raft/raft.go:527-553 | A leader's commit extends the committed log or stays inside it. |
| SafeSteps.StepSafe | src/raft/raft.go:174-555 | Every step that does not shorten what the leader has given keeps the safety invariant and the committed log. |
| Applied.AppliedPrefixStays | src/raft/raft.go:279-292 | Under the order condition what a server has applied, in this life or an earlier one, stays in its log for ever and is the committed log, although followers truncate. |
| PeerRules.RequestVoteKeepsRule | src/raft/raft.go:174-215 | A vote is granted if and only if the term is not old, the vote of the term is free or the candidate's, and the pair (last term, length) of the voter's log is at most the candidate's; term, vote and role are as stated in each case, and everything is saved. |
| PeerRules.SeeTermKeepsRule | src/raft/raft.go:239-247 | A higher term in a reply is taken over, the role becomes follower, the vote is cleared, and that is saved; otherwise nothing changes. |
| PeerRules.VoteReplyKeepsRule | src/raft/raft.go:459-480 | A granted vote of the candidate's term makes it leader if and only if it and those before are a majority; then every nextIndex is one past the log and every matchIndex 0, and otherwise only the count rises. |
| PeerRules.BuildKeepsRule | src/raft/raft.go:503-518 | The message holds everything from nextIndex on, with the entry before it described, and nextIndex moves past it. |
| PeerRules.AppendEntriesKeepsRule | src/raft/raft.go:252-295 | Success if and only if the term is not old and the entry before is there with its term; then the log is cut there and extended, the commit index taken over and the new stretch applied; on refusal log and commit index stay and nothing is applied. |
| PeerRules.AppendReplyKeepsRule | src/raft/raft.go:304-555 | What the leader does in each case of a reply: higher term, failure, success of its term, anything else. |
| PeerRules.StartKeepsRule | src/raft/raft.go:345-360 | A leader's log grows by the command in its term, saved; any other peer is unchanged. |
| PeerRules.TimeoutKeepsRule | src/raft/raft.go:423-431 | The next term, a vote for itself, the role of candidate, saved. |
| PeerRules.LaunchKeepsRule | src/raft/raft.go:444-458 | One vote to begin with, and arguments that describe the end of the log. |
| PeerRules.BootKeepsRule | src/raft/raft.go:384-413 | A new peer has what was saved, or zeroes, and nothing else. |
| ClusterRules.RunsKeepRules | src/raft/raft.go:174-555 | In every run each step is one peer keeping the rule of its kind and sending what the rule says; no other peer changes, and of the messages only the one the step is about. |
| ClusterRules.GoesOn | src/labrpc/labrpc.go:27-34 | Every run goes on, in range, with whatever the network, the timers and the clients do next: any waiting call, any reply, any crash, timeout or command. |
| ClusterRules.MajorityDecides | src/raft/raft.go:461-478 | When a granted vote reaches a candidate of its term, it leads afterwards if and only if those whose votes have arrived, itself included, are a majority. |
| ClusterRules.RepliesAreHeard | src/raft/raft.go:239-247 | After a reply the asker's term is at least the reply's, and a higher one has made it a saved follower without a vote. |
| RaftPeer.Raft.Make | src/raft/raft.go:384-413 | A new peer is a follower with what the persister holds and with no commit index. |
| RaftPeer.Raft.PersistState | src/raft/raft.go:111-119 | Saves term, vote and log; changes nothing in memory. |
| RaftPeer.Raft.ReadPersist | src/raft/raft.go:124-131 | Reads the three fields back; nothing saved leaves them alone. |
| RaftPeer.Raft.ElectionTimeout | src/raft/raft.go:423-431 | Does the timeout step and keeps its rule. |
| RaftPeer.Raft.DoVote | src/raft/raft.go:444-458 | The loop makes exactly one call for each other peer, all with the candidate's term and last entry. |
| RaftPeer.Raft.HandleRequestVote | src/raft/raft.go:174-215 | Does the vote step, same new state and same reply, and keeps the rule of granting. |
| RaftPeer.Raft.SeeReplyTerm | src/raft/raft.go:239-247 | A higher term gives that term, follower, vote -1 and the old log, in memory and in the persister; otherwise nothing changes. |
| RaftPeer.Raft.VoteReturned | src/raft/raft.go:459-480 | Does the vote-reply step with its loop and keeps its rule: a majority makes the leader, nothing less does, and a higher reply term makes a follower. |
| RaftPeer.Raft.StartCommand | src/raft/raft.go:345-360 | Does the Start step and keeps its rule; a leader's answer names the index at which the command now stands. |
| RaftPeer.Raft.BuildAppend | src/raft/raft.go:503-518 | Does the build step and keeps its rule. |
| RaftPeer.Raft.HandleAppendEntries | src/raft/raft.go:252-295 | Does the append step and keeps the rule of acceptance; the loop sends exactly the newly committed stretch, in order. |
| RaftPeer.Raft.AppendReturned | src/raft/raft.go:304-555 | Does the append-reply step, the nextIndex reset and the commit loop included, and keeps its rule. |
| RaftPeer.Raft.AdvanceCommit | src/raft/raft.go:527-553 | The nested loops end where the commit scan ends and send exactly the entries in between. |
| RaftPeer.Raft.CountMatching | src/raft/raft.go:531-539 | The count is one plus the other peers whose matchIndex is beyond the index. |
| KvReplay.EntryEffect | src/kvraft/server.go:73-93 | One more entry: a "Put" with a new UUID sets the value of its key, an "Append" with a new UUID adds to it, every other entry leaves the database as it is, and no other key is touched. |
| KvReplay.ReplayIsFold | src/kvraft/server.go:65-93 | For every log the database is the fold of exactly the writes whose UUID no earlier entry has. |
| KvReplay.SeenMeans | src/kvraft/server.go:77-81 | A UUID has been counted exactly if some entry, a Get included, carries it. |
| KvReplay.OnePerUuid | src/kvraft/server.go:77-81 | In every log, of all the entries with one UUID only the first takes effect, and only if it is not a Get. |
| KvReplay.EffectCount | src/kvraft/server.go:77-81 | In every log a write takes effect once if it is the first entry with its UUID and otherwise never. |
| KvReplay.DuplicatesChangeNothing | src/kvraft/server.go:77-80 | Later duplicates, inserted anywhere and in any number, change no value. |
| KvReplay.ReplayResumes | src/kvraft/server.go:73-93 | Replaying a+b is replaying b from the database and the UUIDs that a left. |
| KvReplay.ProjectionExact | src/kvraft/kvraft.md:223-224 | Replaying one key's entries lets the same writes of the key through if and only if no write of the key reuses a UUID that only other keys had used. |
| KvReplay.IgnoreOtherKeys | src/kvraft/kvraft.md:223-224 | On key-stable logs the projection gives the same value for the key. |
| KvReplay.IgnoringOtherKeysCanFail | src/kvraft/server.go:77-80 | Two Puts with one UUID and two keys: the full replay skips the second, the projection does not. |
| KvReplay.AppendsConcatenate | src/kvraft/server.go:89-91 | If only Appends to a key take effect, its value is their values in log order. |
| KvPeer.RaftKV.ApplyLoop | src/kvraft/server.go:180-190 | currentIndex is the largest index of all the messages received. |
| KvOnRaft.CurrentIndexIsApplied | src/kvraft/server.go:125 | In every run currentIndex has reached an index if and only if the peer has applied that index in this life. |
| KvPeer.RaftKV.Rebuild | src/kvraft/server.go:65-93 | The loop with its continue computes the replay of the committed part of the log. |
| KvPeer.RaftKV.PollGet | src/kvraft/server.go:62-99 | A Get answers exactly when currentIndex equals its index, with the replayed value of the key. |
| KvPeer.RaftKV.PollPutAppend | src/kvraft/server.go:125-134 | A write is acknowledged exactly when it is applied and the entry at its index has its three fields. |
| KvPeer.ClerkObject.Get | src/kvraft/client.go:49-71 | The retry loops make one call after the other up to the first that succeeds and return its value; every call carries the same request; the first answer gives the clerk its id. |
| KvPeer.ClerkObject.PutAppend | src/kvraft/client.go:83-103 | Every resend carries the same operation; the rounds up to the first with a success are made whole; the counter moves on once; a clerk without id does a Get of "nobody" first. |
| Uuids.ItoaValue | src/kvraft/client.go:55 | The decimal text of a number reads back as the number. |
| Uuids.UuidInjective | src/kvraft/client.go:92 | The text id_cnt determines the id and the counter. |
| ClerkTheorems.OneClerkUnique | src/kvraft/client.go:83-102 | The operations of one clerk never share a UUID, whatever answered its Gets. |
| ClerkTheorems.OwnEntriesDiffer | src/kvraft/client.go:52-69 | Two clerks whose first Gets were answered from their own entries share no UUID afterwards, whatever a third clerk did. |
| ClerkTheorems.AnsweredFromOwn | src/kvraft/server.go:96-98 | Whether a clerk's id is its own is decided by whose entry stands at the index when its first Get is answered. |
| ClerkTheorems.OwnEntryStays | src/kvraft/client.go:61-63 | And nothing that happens later changes it. |
| ClerkTheorems.UuidsUnique | src/kvraft/client.go:83-102 | No write shares its UUID with another operation if and only if no two clerks have the same id and both came to an operation of the same number, of which one is a write. |
| ClerkWorld.StoryOk | src/kvraft/client.go:83-103 | In every story a write whose three fields no other operation has is acknowledged only after it has landed, and what its clerk issues later lands only after it. |
| ClerkTheorems.AcknowledgedExactlyOnce | src/kvraft/server.go:125-133 | An acknowledged write takes effect exactly once, however often it was sent and landed, if no other operation has its three fields and no other clerk of the same id has come as far. |
| ClerkTheorems.LandedExactly | src/kvraft/server.go:77-80 | A write, acknowledged or not and whatever the ids, takes effect exactly once if it landed and no clerk of the same id had landed its operation of that number before, and otherwise never. Other writes may have its three fields; only a clerk of the same id must not have an equal operation of the same number. |
| ClerkTheorems.AcknowledgedFound | src/kvraft/server.go:125-133 | In every story an acknowledged write has landed, or another operation with its three fields exists; some entry of the log has these fields in any case. |
| ClerkWitness.SharedIdLosesAppend | src/kvraft/server.go:62 | For any key and two values there is a story, all writes distinct, in which two clerks have one id and an acknowledged Append has no effect. |
| ClerkWitness.RepeatedAppendLost | src/kvraft/server.go:128 | For any key and value there is a story of one clerk with an id of its own that appends the value twice and is acknowledged twice, although the second Append never landed and a Get sees the value once. |
| ClerkTheorems.AcknowledgedInOrder | src/kvraft/client.go:83-103 | One clerk's acknowledged writes take effect in program order, under the same two conditions on each. |
| ClerkTheorems.AppendedValue | src/kvraft/server.go:73-93 | If clerks only Append to a key, its value is the concatenation of the Appends that take effect. |
| KvOnRaft.GetsSeeOneHistory | src/kvraft/server.go:64-73 | Under the order condition any two Gets, at any servers and times, replay prefixes of one history: one database is where the other arrives by replaying on. |
| KvOnRaft.AcknowledgementReadsCommitted | src/kvraft/server.go:125-128 | Under the order condition the entry that the acknowledgement test reads from the peer's present log is the committed one. |
| CommittedStory.CommittedStarted | src/raft/raft.go:345-352 | Under the order condition whatever is committed was given to Start before. |
| CommittedStory.CommitsLand | src/kvraft/server.go:112 | Under the order condition each step of a run in which Start gets only clerks' requests is zero or more landings of a story, after which the story's log is again the committed log. |
| CommittedStory.AcknowledgementIsPossible | src/kvraft/server.go:125-131 | What PutAppend tests at a peer that has applied the index holds exactly when the story allows the acknowledgement. |
| CommittedStory.AcknowledgedIsReplayed | src/kvraft/server.go:62-93 | Under the order condition, a write without a twin that passes PutAppend's test counts exactly once in what every Get replays, at any server and time, once its commit index has reached the entry, unless a clerk of the same id had overtaken it, and then it does not count at all. |
| CrashProtocol.AcknowledgedSurvives | src/labrpc/labrpc.go:206-247 | In every interleaving, if Call returns true, what the handler left persisted is a prefix of the writes that every later incarnation reads back, and of what is saved for it. |
| CrashProtocol.CheckedIsSafe | src/labrpc/labrpc.go:222-228 | When the last IsServerDead says no, the persister of the handler is the one that the next copy is taken from. |
| CrashProtocol.SafeStays | src/raft/config.go:75-103 | Copying, rereading, preparing and making keep what is safe, also while the old incarnation goes on writing. |
| CrashProtocol.OldWritesStayOut | src/raft/config.go:81-87 | What an old incarnation writes once a new one exists lands in its own persister and in nothing that is saved for any server. |
| CrashProtocol.HarnessStays | src/raft/config.go:112-189 | A server that the network knows is always the last incarnation of its name, over the persister that is saved. |
| CrashProtocol.CopyingFirstLosesIt | src/labrpc/labrpc.go:226-228 | If the persister were copied before DeleteServer, a write that was acknowledged would not be read back: a concrete interleaving. |
| NetworkRefines.ReceiveRefines | src/labrpc/labrpc.go:160-189 | The first look of ProcessReq gives the request to a server exactly when the protocol does, and then to the object of the incarnation that the protocol chooses. |
| NetworkRefines.SameVerdict | src/labrpc/labrpc.go:176-184 | Comparing server objects and comparing incarnations give the same verdict. |
| NetworkRefines.DeleteMirrors | src/labrpc/labrpc.go:294-299 | Setting the name to nil is the protocol's DeleteServer. |
| NetworkRefines.MakeMirrors | src/raft/config.go:179-187 | A new peer with a new server object is a new incarnation; no name stands for it yet. |
| NetworkRefines.AddMirrors | src/labrpc/labrpc.go:287-292 | Binding the name to that object is the protocol's AddServer. |
| NetworkRefines.EnableMirrors | src/labrpc/labrpc.go:311-316 | Switching an end is the protocol's Enable. |
| NetworkRefines.ConnectMirrors | src/labrpc/labrpc.go:303-308 | Connecting an end is the protocol's Connect. |
| NetworkRefines.DeleteRefines | src/labrpc/labrpc.go:294-299 | After DeleteServer on the object every incarnation of the name is dead to every end. |
| NetworkRefines.CheckRefines | src/labrpc/labrpc.go:222-231 | The last look of ProcessReq says alive exactly when the protocol lets the call pass. |
| Persisters.Persister.Copy | src/raft/persister.go:24-31 | A new persister with the same content. |
| Persisters.Persister.SaveRaftState | src/raft/persister.go:33-37 | Replaces the Raft state and leaves the snapshot. |
| Persisters.Persister.ReadRaftState | src/raft/persister.go:39-43 | Returns what was saved last. |
| Harness.RpcServer.Dispatch | src/labrpc/labrpc.go:350-374 | A call is counted and has the effect, the reply and the applied entries of the peer's handler. |
| Harness.Network.IsServerDead | src/labrpc/labrpc.go:176-184 | Not dead exactly if the end is enabled and the name still stands for the same server object. |
| Harness.Network.ProcessReq | src/labrpc/labrpc.go:186-247 | A reply is delivered if and only if the request was accepted, the handler was done before the server was seen dead, the last look says alive, and nothing was lost. |
| Harness.Network.MakeEnd | src/labrpc/labrpc.go:269-285 | Fails exactly on a name that is taken; a new end is disabled and unconnected. |
| Harness.Network.AddServer | src/labrpc/labrpc.go:287-292 | Binds the name to the server object and touches no other name. |
| Harness.Network.DeleteServer | src/labrpc/labrpc.go:294-299 | Afterwards the name stands for no server; other names keep theirs. |
| Harness.Network.Connect | src/labrpc/labrpc.go:303-308 | Binds the end to the server's name. |
| Harness.Network.Enable | src/labrpc/labrpc.go:311-316 | Switches one end. |
| Harness.Config.Disconnect | src/raft/config.go:224-244 | Afterwards an end is enabled exactly if it was and it leads neither from nor to the server. |
| Harness.Config.Crash1 | src/raft/config.go:75-103 | The ends from and to the server are disabled, the network forgets it, its saved state is kept in a persister the old peer does not know, its snapshot is not, and the other servers are untouched. |
| Harness.Config.NewEnds | src/raft/config.go:117-127 | Succeeds exactly if all names are new and different, and then connects end j to server j. |
| Harness.Config.FreshPersister | src/raft/config.go:135-139 | A persister of its own with the last saved state and snapshot, or empty. |
| Harness.Config.Start1 | src/raft/config.go:112-189 | The new peer starts from the last saved state over a fresh persister without a snapshot, behind a server object that no old request knows, with new ends that lead to every server and are disabled, as are the old ones. |
| Base32.DecodeEncode | src/diskv/server.go:76-83 | Every key comes back from its file name. |
| Base32.EncodeDecode | src/diskv/server.go:80-83 | Only encodings are decoded: a text that decodes, with no unused bit set, is the encoding of what it decodes to. |
| Base32.EncodeInjective | src/diskv/server.go:72-78 | Different keys have different file names. |
| Base32.SafeCharacters | src/diskv/server.go:72-78 | A name has only upper-case letters, the digits 2 to 7 and padding, and a multiple of eight characters. |
| Base32.TestVector | src/diskv/server.go:76-78 | The encoding of "fo" is that of section 10 of RFC 4648. |
| Base32.LettersKeepBits | src/diskv/server.go:76-78 | The letters carry the bits of the key, filled up with fewer than five zeros. |
| ShardFiles.NamesOfFo | src/diskv/server.go:87-97 | The two file names of the key "fo". |
| ShardFiles.PutIsAtomic | src/diskv/server.go:95-105 | A put cut anywhere changes what a key reads as only if its rename was done, and then only for its key, in its shard, to its content. |
| ShardFiles.CrashAtomic | src/diskv/server.go:95-105 | Over any number of puts, each cut anywhere, every key of every shard reads as its latest complete put, or as before. |
| ShardFiles.LatestIsLast | src/diskv/server.go:92-105 | The latest complete put of a key is the one with no complete put of it after it. |
| ShardFiles.LatestIsOld | src/diskv/server.go:92-105 | A key none of whose puts was complete reads as before. |
| ShardFiles.StoreIsReadable | src/diskv/server.go:115-128 | No file that the store makes, a leftover temporary file included, stops fileReadShard. |
| ShardFiles.InterruptedReplace | src/diskv/server.go:133-139 | A replacement by m cut anywhere never mixes: either all keys that read have their old content, or all keys that read have the content that m gives them. |
| ShardFiles.ReplacedAtomically | src/diskv/server.go:133-139 | A key is replaced atomically, wherever the replacement is cut, if and only if it has no content before or none after. |
| ShardFiles.WholeReplace | src/diskv/server.go:133-139 | Uncut, each key of the shard reads as m says, without the keys whose put failed. |
| ShardStore.DisKV.ShardDir | src/diskv/server.go:59-69 | The directory is there afterwards. |
| ShardStore.DisKV.WriteFile | src/diskv/server.go:98-100 | The temporary file is emptied and filled byte by byte as far as the disk has room. |
| ShardStore.DisKV.FileGet | src/diskv/server.go:86-90 | The content of the key, or an error if it has none. |
| ShardStore.DisKV.FilePut | src/diskv/server.go:95-105 | The file operations are those of the put, all of them exactly if it returns no error. |
| ShardStore.DisKV.FileReadShard | src/diskv/server.go:108-130 | It returns exactly if every name has four characters and every key file decodes to a key that has a file; the map is then what the keys hold. |
| ShardStore.DisKV.RemoveAll | src/diskv/server.go:134-135 | Exactly the files of the directory go, one by one, and then the directory; other shards stay. |
| ShardStore.DisKV.FileReplaceShard | src/diskv/server.go:133-139 | The file operations are those of a replacement by m, one put for each key of m; the shard reads as m without the keys whose put failed; the other shards read as before. |
| ShardStore.ReadAfterCrash | src/diskv/server.go:108-130 | After any puts with crashes fileReadShard returns, with exactly the latest complete puts over what was there. |
| ShardStore.ReplaceThenRead | src/diskv/server.go:133-139 | An uninterrupted replacement followed by fileReadShard gives the map back. |

## Left out

- SafetyTheorems.StateMachineSafety: assumes the order condition. The code does not meet the property without it (`Reordering.OvertakenHeartbeat`). The condition is exact for what a follower may lose (`OrderCondition.OrderIsKeepingEntries`); for a single run it is not necessary, since an overtaken message may do no harm.
- SafetyTheorems.LeaderCompleteness: assumes the order condition, for the same reason.
- ClerkTheorems.AcknowledgedExactlyOnce: the acknowledgement compares only name, key and value (src/kvraft/server.go:128) and an id is not always a clerk's own (src/kvraft/server.go:62). Without either condition there is a counterexample (`RepeatedAppendLost`, `SharedIdLosesAppend`). They are stated for one write, not for all.
- ClerkTheorems.LandedExactly: asks that no clerk of the same id has an equal operation of the same number, since the effects are counted by operation and the two would be one. `KvReplay.EffectCount` has no condition.
- ClerkWorld.StoryOk: the index of an answer is any index of the log, not the one that Start returned for that request. This only adds stories; that the stories of `ClerkWitness` can happen, with a stale leader that had started the request at that index, is argued in their comments and not proved.
- CommittedStory.CommitsLand: that Start gets only what clerks have issued is a hypothesis; the calls between clerk and server are not modelled a second time.
- Linearizability of Get is not claimed: the entry at a Get's index may be another request's.
- KvPeer.RaftKV.PollGet: one turn of the polling loop. The counters that end the loops after 30 and 500 turns and the sleeps between turns are not modelled.
- KvPeer.ClerkObject.Get: the endless retry loop is cut to a given list of rounds, and how each call ends is an input.
- KvPeer.ClerkObject.PutAppend: as for Get.
- Harness.RpcServer.Dispatch: the lookup of service and method by name is not modelled; a request says which of the two handlers it is for.
- Harness.Network.ProcessReq: one goroutine by itself. What it sees of the network at each look is an input; the interleaving is in CrashProtocol.
- Reliable, LongReordering, LongDelays and GetCount of the network: setters, delays and a counter.
- Harness.Config.Start1: the random end names are inputs. That a name is taken, which is fatal in the program, ends it early.
- ShardStore.DisKV.FileReplaceShard: the puts that fail are given as a set, and fail at the rename.
- ShardFiles.CrashAtomic: a path is a shard and a file name; the system keeps the order of file operations over a crash and renames atomically; a failing Mkdir, which is fatal, is not modelled.
- Base32.DecodeEncode: decoding accepts left-over bits that are not zero, and does not skip line breaks as Go's library does; no name of the store has any.
- CrashProtocol.AcknowledgedSurvives: a persister is the list of its writes, not its bytes; of the snapshot nothing is said. Delays and losses are choices.
- Liveness, the clock and timers: none. The only progress claim is the repair bound.
- 64-bit overflow of terms, indexes and counters: numbers are unbounded.
- Reading role, logs and commitIndex without the lock (GetState, GetState2, currentIndex): each read is one with the step it belongs to.
- gob, reflection, channels, sockets, printing, log.Fatalf on an unknown service or method: not modelled.
- The rest of the repository: the skeletons of paxos, kvpaxos, pbservice, viewservice, shardkv, shardmaster and of diskv's request handlers have no behaviour yet; lockservice, mapreduce, the time service and the command-line programs would only add easy members.
