/** The persister: what survives a crash of the peer that writes to it. */
module Persisters {
  import opened RaftTypes

  class Persister {
    var raftstate: Option<Saved>
    var snapshot: seq<int>

    /** MakePersister: nothing saved. */
    constructor ()
      ensures raftstate == None && snapshot == []
    {
      raftstate := None;
      snapshot := [];
    }

    /** A fresh persister with the same content: what the old owner writes later does not reach it. */
    method Copy() returns (np: Persister)
      ensures fresh(np) && np.raftstate == raftstate && np.snapshot == snapshot
    {
      np := new Persister();
      np.raftstate := raftstate;
      np.snapshot := snapshot;
    }

    method SaveRaftState(data: Option<Saved>)
      modifies this`raftstate
      ensures raftstate == data
    {
      raftstate := data;
    }

    method ReadRaftState() returns (data: Option<Saved>)
      ensures data == raftstate
    {
      data := raftstate;
    }
  }
}
