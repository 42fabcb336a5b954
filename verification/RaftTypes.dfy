/** The values that Raft peers keep, send and persist. */
module RaftTypes {

  datatype Option<+T> = None | Some(value: T)

  /** A command of the key/value service. Raft itself never looks inside a command. */
  datatype Op = Op(opt: string, key: string, value: string, uuid: string)

  type Command = Op

  datatype Entry = Entry(command: Command, term: nat)

  type Log = seq<Entry>

  datatype Role = Follower | Candidate | Leader

  datatype ApplyMsg = ApplyMsg(index: nat, command: Command)

  datatype VoteArgs = VoteArgs(term: nat, candidateId: nat, lastLogIndex: nat, lastLogTerm: nat)

  datatype VoteReply = VoteReply(term: nat, voteGranted: bool)

  datatype AppendArgs = AppendArgs(
    term: nat, leaderId: nat, prevLogIndex: nat, prevLogTerm: nat, entries: Log, leaderCommit: nat)
  {
    /** The length of the log that an accepted message leaves behind. */
    function Reach(): nat {
      prevLogIndex + |entries|
    }
  }

  datatype AppendReply = AppendReply(term: nat, success: bool, len: nat)

  /** The triple that persist() writes. */
  datatype Saved = Saved(currentTerm: nat, votedFor: int, logs: Log)

  function LastTerm(log: Log): nat {
    if log == [] then 0 else log[|log| - 1].term
  }
}
