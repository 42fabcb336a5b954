/** The key/value server and the clerk as objects, with the loops of the program. */
module KvPeer {
  import opened RaftTypes
  import opened KvReplay
  import opened Uuids

  /** The replies, without the error strings, which nobody sets. */
  datatype GetReply = GetReply(wrongLeader: bool, value: string, id: nat)

  datatype PutAppendReply = PutAppendReply(wrongLeader: bool, id: nat)

  /** The largest index among the messages, or `from` if that is larger. */
  function Largest(from: nat, msgs: seq<ApplyMsg>): (r: nat)
    ensures from <= r && forall i :: 0 <= i < |msgs| ==> msgs[i].index <= r
    ensures r == from || exists i :: 0 <= i < |msgs| && msgs[i].index == r
  {
    if msgs == [] then from
    else
      var r, last := Largest(from, msgs[..|msgs| - 1]), msgs[|msgs| - 1].index;
      if last > r then last else r
  }

  class RaftKV {
    var currentIndex: nat

    constructor ()
      ensures currentIndex == 0
    {
      currentIndex := 0;
    }

    /** One message from applyCh. */
    method OnApply(msg: ApplyMsg)
      modifies this
      ensures currentIndex == if msg.index > old(currentIndex) then msg.index else old(currentIndex)
    {
      if msg.index > currentIndex {
        currentIndex := msg.index;
      }
    }

    /** The goroutine that reads applyCh, over the messages that have come: currentIndex is the largest index. */
    method ApplyLoop(msgs: seq<ApplyMsg>)
      modifies this
      ensures currentIndex == Largest(old(currentIndex), msgs)
    {
      var i := 0;
      assert msgs[..0] == [];
      while i < |msgs|
        invariant i <= |msgs| && currentIndex == Largest(old(currentIndex), msgs[..i])
      {
        OnApply(msgs[i]);
        assert msgs[..i + 1][..i] == msgs[..i];
        i := i + 1;
      }
      assert msgs[..i] == msgs;
    }

    /** The replay loop of Get over the committed part of the log. */
    method Rebuild(logs: seq<Op>, commitIndex: nat) returns (db: Db)
      requires commitIndex <= |logs|
      ensures db == Replay(logs[..commitIndex]).db
    {
      db := map[];
      var uuids: map<string, nat> := map[];
      var i := 0;
      assert logs[..0] == [];
      while i < commitIndex
        invariant i <= commitIndex
        invariant Table(db, uuids) == Replay(logs[..i])
      {
        var op := logs[i];
        ReplaySnoc(logs[..i], op);
        assert logs[..i] + [op] == logs[..i + 1];
        i := i + 1;
        if op.opt != "Get" && Count(uuids, op.uuid) > 0 {
          continue;
        }
        uuids := uuids[op.uuid := Count(uuids, op.uuid) + 1];
        if op.opt == "Put" {
          db := db[op.key := op.value];
        } else if op.opt == "Append" {
          db := db[op.key := Lookup(db, op.key) + op.value];
        }
      }
    }

    /** One turn of the polling loop of Get, whose own entry was started at index. */
    method PollGet(index: nat, key: string, logs: seq<Op>, commitIndex: nat) returns (reply: Option<GetReply>)
      requires commitIndex <= |logs|
      ensures reply == if currentIndex != index then None
                       else Some(GetReply(false, Lookup(Replay(logs[..commitIndex]).db, key), index))
    {
      reply := None;
      if currentIndex == index {
        var db := Rebuild(logs, commitIndex);
        reply := Some(GetReply(false, Lookup(db, key), index));
      }
    }

    /** One turn of the polling loop of PutAppend. */
    method PollPutAppend(index: nat, op: Op, logs: seq<Op>) returns (reply: Option<PutAppendReply>)
      requires 1 <= index && (currentIndex >= index ==> index <= |logs|)
      ensures reply.Some? <==> currentIndex >= index
      ensures reply.Some? ==>
                (!reply.value.wrongLeader <==>
                 logs[index - 1].opt == op.opt && logs[index - 1].key == op.key && logs[index - 1].value == op.value)
                && reply.value.id == (if reply.value.wrongLeader then 0 else index)
    {
      reply := None;
      if currentIndex >= index {
        var tmp := logs[index - 1];
        if tmp.opt == op.opt && tmp.key == op.key && tmp.value == op.value {
          reply := Some(PutAppendReply(false, index));
        } else {
          reply := Some(PutAppendReply(true, 0));
        }
      }
    }
  }

  /** How one call of the clerk ends: whether it was delivered, and the reply. */
  datatype Outcome = Outcome(ok: bool, wrongLeader: bool, value: string, id: nat)
  {
    predicate Success() { ok && !wrongLeader }
  }

  /** Call i of round r is the first one to succeed. */
  ghost predicate FirstSuccess(rounds: seq<seq<Outcome>>, r: nat, i: nat) {
    && r < |rounds| && i < |rounds[r]| && rounds[r][i].Success()
    && (forall j :: 0 <= j < i ==> !rounds[r][j].Success())
    && NoSuccess(rounds, r)
  }

  ghost predicate NoSuccess(rounds: seq<seq<Outcome>>, upTo: nat) {
    forall q, j :: 0 <= q < upTo <= |rounds| && 0 <= j < |rounds[q]| ==> !rounds[q][j].Success()
  }

  /** Round r is the first in which a call succeeds. */
  ghost predicate LastRound(rounds: seq<seq<Outcome>>, r: nat) {
    r < |rounds| && NoSuccess(rounds, r) && exists i :: 0 <= i < |rounds[r]| && rounds[r][i].Success()
  }

  /** How many calls the first r rounds make. */
  function Calls(rounds: seq<seq<Outcome>>, r: nat): nat
    requires r <= |rounds|
  {
    if r == 0 then 0 else Calls(rounds, r - 1) + |rounds[r - 1]|
  }

  class ClerkObject {
    var id: nat
    var cnt: nat

    constructor ()
      ensures id == 0 && cnt == 0
    {
      id, cnt := 0, 0;
    }

    /** Get tries the servers in turn, round after round, until one answers. `rounds` is how the calls of
        each round end; `sent` are the requests, one for each call up to the first that succeeds. Without an
        answer the loop goes on after the last round, so the clerk is unchanged there. */
    method Get(key: string, rounds: seq<seq<Outcome>>) returns (success: bool, value: string, ghost sent: seq<Op>)
      modifies this
      ensures forall op :: op in sent ==> op == Op("Get", key, "", Uuid(old(id), old(cnt)))
      ensures success <==> !NoSuccess(rounds, |rounds|)
      ensures !success ==> id == old(id) && cnt == old(cnt) && |sent| == Calls(rounds, |rounds|)
      ensures success ==> exists r: nat, i: nat ::
                FirstSuccess(rounds, r, i) && value == rounds[r][i].value && |sent| == Calls(rounds, r) + i + 1
                && id == (if old(id) == 0 then rounds[r][i].id else old(id)) && cnt == old(cnt) + 1
    {
      value, success, sent := "", false, [];
      var r := 0;
      while r < |rounds| && !success
        invariant r <= |rounds|
        invariant cnt == old(cnt)
        invariant forall op :: op in sent ==> op == Op("Get", key, "", Uuid(old(id), old(cnt)))
        invariant !success ==> id == old(id) && NoSuccess(rounds, r) && |sent| == Calls(rounds, r)
        invariant success ==> exists q: nat, i: nat ::
                    FirstSuccess(rounds, q, i) && value == rounds[q][i].value && |sent| == Calls(rounds, q) + i + 1
                    && id == (if old(id) == 0 then rounds[q][i].id else old(id))
        decreases |rounds| - r
      {
        var i := 0;
        while i < |rounds[r]|
          invariant i <= |rounds[r]|
          invariant cnt == old(cnt) && id == old(id) && !success && |sent| == Calls(rounds, r) + i
          invariant forall op :: op in sent ==> op == Op("Get", key, "", Uuid(old(id), old(cnt)))
          invariant forall j :: 0 <= j < i ==> !rounds[r][j].Success()
        {
          sent := sent + [Op("Get", key, "", Uuid(id, cnt))];
          var outcome := rounds[r][i];
          if outcome.ok && !outcome.wrongLeader {
            success := true;
            value := outcome.value;
            if id == 0 {
              id := outcome.id;
            }
            assert FirstSuccess(rounds, r, i);
            break;
          }
          i := i + 1;
        }
        r := r + 1;
      }
      if success {
        cnt := cnt + 1;
      }
    }

    /** Put and Append. A clerk without an id first does a Get of the key "nobody", which gives it one; `nobody`
        is how the calls of that Get end and `asked` are its requests. The calls to the remaining servers of a
        round are made after a success too, so the rounds up to the first with a success are made whole. */
    method PutAppend(key: string, value: string, opt: string, nobody: seq<seq<Outcome>>, rounds: seq<seq<Outcome>>)
      returns (success: bool, ghost asked: seq<Op>, ghost sent: seq<Op>)
      modifies this
      ensures success ==> cnt > 0
      ensures forall op :: op in sent ==> op == Op(opt, key, value, Uuid(id, if success then cnt - 1 else cnt))
      ensures forall op :: op in asked ==> op == Op("Get", "nobody", "", Uuid(0, old(cnt)))
      ensures old(id) != 0 ==> id == old(id) && cnt == old(cnt) + (if success then 1 else 0) && asked == []
      ensures old(id) == 0 && NoSuccess(nobody, |nobody|) ==>
                !success && sent == [] && |asked| == Calls(nobody, |nobody|) && id == old(id) && cnt == old(cnt)
      ensures old(id) == 0 && !NoSuccess(nobody, |nobody|) ==>
                && cnt == old(cnt) + (if success then 2 else 1)
                && exists r: nat, i: nat ::
                     FirstSuccess(nobody, r, i) && id == nobody[r][i].id && |asked| == Calls(nobody, r) + i + 1
      ensures success <==> (old(id) != 0 || !NoSuccess(nobody, |nobody|)) && !NoSuccess(rounds, |rounds|)
      ensures success ==> exists r: nat :: LastRound(rounds, r) && |sent| == Calls(rounds, r + 1)
      ensures !success && (old(id) != 0 || !NoSuccess(nobody, |nobody|)) ==> |sent| == Calls(rounds, |rounds|)
    {
      success, asked, sent := false, [], [];
      if id == 0 {
        var found, ignored;
        found, ignored, asked := Get("nobody", nobody);
        if !found {
          return;
        }
      }
      label Named:
      var r := 0;
      while r < |rounds| && !success
        invariant r <= |rounds|
        invariant id == old@Named(id) && cnt == old@Named(cnt)
        invariant forall op :: op in sent ==> op == Op(opt, key, value, Uuid(id, cnt))
        invariant success <==> !NoSuccess(rounds, r)
        invariant |sent| == Calls(rounds, r)
        invariant success ==> 0 < r && LastRound(rounds, r - 1)
        decreases |rounds| - r
      {
        var i := 0;
        while i < |rounds[r]|
          invariant i <= |rounds[r]|
          invariant id == old@Named(id) && cnt == old@Named(cnt) && |sent| == Calls(rounds, r) + i
          invariant forall op :: op in sent ==> op == Op(opt, key, value, Uuid(id, cnt))
          invariant success <==> exists j :: 0 <= j < i && rounds[r][j].Success()
        {
          sent := sent + [Op(opt, key, value, Uuid(id, cnt))];
          var outcome := rounds[r][i];
          if outcome.ok && !outcome.wrongLeader {
            success := true;
          }
          i := i + 1;
        }
        r := r + 1;
      }
      if success {
        cnt := cnt + 1;
      }
    }
  }
}
