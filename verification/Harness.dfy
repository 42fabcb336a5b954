/** The simulated network and the harness that crashes and restarts peers, as objects. */
module Harness {
  import opened RaftTypes
  import opened RaftServer
  import opened Persisters
  import opened RaftPeer

  datatype Request = VoteRequest(vote: VoteArgs) | AppendRequest(append: AppendArgs)

  datatype Reply = VoteAnswer(vote: VoteReply) | AppendAnswer(append: AppendReply)

  /** A labrpc server with the one service that the harness gives it. */
  class RpcServer {
    const rcvr: Raft
    var count: nat

    constructor (rcvr: Raft)
      ensures this.rcvr == rcvr && count == 0
    {
      this.rcvr, count := rcvr, 0;
    }

    /** One incoming call: counted, and handed to the peer's handler. */
    method Dispatch(req: Request) returns (reply: Reply, ghost sent: seq<ApplyMsg>)
      requires req.AppendRequest? ==> AppendInRange(rcvr.View(), req.append)
      modifies this`count, rcvr, rcvr.persister
      ensures count == old(count) + 1
      ensures req.VoteRequest? ==>
                (rcvr.View(), reply) == (RequestVote(old(rcvr.View()), req.vote).0,
                                         VoteAnswer(RequestVote(old(rcvr.View()), req.vote).1)) && sent == []
      ensures req.AppendRequest? ==>
                (rcvr.View(), reply) == (AppendEntries(old(rcvr.View()), req.append).0,
                                         AppendAnswer(AppendEntries(old(rcvr.View()), req.append).1))
                && sent == AppendOutput(old(rcvr.View()), req.append)
    {
      count := count + 1;
      sent := [];
      match req {
        case VoteRequest(args) =>
          var r := rcvr.HandleRequestVote(args);
          reply := VoteAnswer(r);
        case AppendRequest(args) =>
          var r, out := rcvr.HandleAppendEntries(args);
          reply := AppendAnswer(r);
          sent := out;
      }
    }
  }

  /** What ProcessReq sees each time it looks: the handler is done, or 100 ms have passed. */
  datatype Look = Done(reply: Reply) | Tick(dead: bool)

  datatype Fate = Waiting | Refused | Delivered(reply: Reply)

  /** The look that ends the waiting, if one does. */
  function FirstEnd(looks: seq<Look>): (i: nat)
    ensures i <= |looks|
    ensures i < |looks| ==> looks[i].Done? || looks[i].dead
    ensures forall j :: 0 <= j < i ==> looks[j].Tick? && !looks[j].dead
  {
    if looks == [] || looks[0].Done? || looks[0].dead then 0 else 1 + FirstEnd(looks[1..])
  }

  class Network {
    var reliable: bool
    var ends: set<nat>
    var enabled: map<nat, bool>
    var servers: map<nat, RpcServer?>
    var connections: map<nat, Option<nat>>

    constructor ()
      ensures reliable && ends == {} && enabled == map[] && servers == map[] && connections == map[]
    {
      reliable, ends, enabled, servers, connections := true, {}, map[], map[], map[];
    }

    function To(end: nat): Option<nat>
      reads this`connections
    {
      if end in connections then connections[end] else None
    }

    predicate On(end: nat)
      reads this`enabled
    {
      end in enabled && enabled[end]
    }

    function Server(name: nat): RpcServer?
      reads this`servers
    {
      if name in servers then servers[name] else null
    }

    method ReadEndnameInfo(end: nat) returns (isEnabled: bool, name: Option<nat>, server: RpcServer?)
      ensures isEnabled == (end in enabled && enabled[end])
      ensures name == if end in connections then connections[end] else None
      ensures server == if name.Some? then Server(name.value) else null
    {
      isEnabled := end in enabled && enabled[end];
      name := if end in connections then connections[end] else None;
      server := if name.Some? then Server(name.value) else null;
    }

    method IsServerDead(end: nat, name: nat, server: RpcServer?) returns (dead: bool)
      ensures !dead <==> end in enabled && enabled[end] && Server(name) == server
    {
      if !(end in enabled && enabled[end]) || Server(name) != server {
        return true;
      }
      return false;
    }

    /** The fate of a request, from what ReadEndnameInfo returned, what the waiting loop saw, the last
        IsServerDead, and whether an unreliable network loses the request or the reply. */
    method ProcessReq(isEnabled: bool, name: Option<nat>, server: RpcServer?, loseRequest: bool, loseReply: bool,
                      looks: seq<Look>, deadAtEnd: bool)
      returns (fate: Fate)
      ensures fate.Delivered? <==>
              && isEnabled && name.Some? && server != null && !(!reliable && loseRequest)
              && FirstEnd(looks) < |looks| && looks[FirstEnd(looks)].Done?
              && !deadAtEnd && !(!reliable && loseReply)
      ensures fate.Delivered? ==> looks[FirstEnd(looks)] == Done(fate.reply)
      ensures fate.Waiting? <==>
              isEnabled && name.Some? && server != null && !(!reliable && loseRequest) && FirstEnd(looks) == |looks|
    {
      if isEnabled && name.Some? && server != null {
        if !reliable && loseRequest {
          return Refused;
        }
        var reply := None;
        var serverDead := false;
        var i := 0;
        while i < |looks| && reply.None? && !serverDead
          invariant i <= |looks|
          invariant reply.None? && !serverDead ==> FirstEnd(looks) == i + FirstEnd(looks[i..])
          invariant reply.Some? || serverDead ==> 0 < i && FirstEnd(looks) == i - 1
          invariant reply.Some? ==> looks[i - 1] == Done(reply.value) && !serverDead
          invariant serverDead ==> looks[i - 1].Tick?
        {
          assert looks[i..][1..] == looks[i + 1..];
          match looks[i] {
            case Done(r) => reply := Some(r);
            case Tick(dead) => serverDead := dead;
          }
          i := i + 1;
        }
        if reply.None? && !serverDead {
          return Waiting;
        }
        serverDead := deadAtEnd;
        if reply.None? || serverDead {
          return Refused;
        } else if !reliable && loseReply {
          return Refused;
        } else {
          return Delivered(reply.value);
        }
      } else {
        return Refused;
      }
    }

    /** False stands for the fatal error of a name that is taken. */
    method MakeEnd(end: nat) returns (ok: bool)
      modifies this
      ensures ok == (end !in old(ends))
      ensures ok ==> ends == old(ends) + {end} && enabled == old(enabled)[end := false]
                     && connections == old(connections)[end := None]
      ensures !ok ==> ends == old(ends) && enabled == old(enabled) && connections == old(connections)
      ensures servers == old(servers) && reliable == old(reliable)
    {
      ok := end !in ends;
      if ok {
        ends := ends + {end};
        enabled := enabled[end := false];
        connections := connections[end := None];
      }
    }

    method AddServer(name: nat, server: RpcServer)
      modifies this`servers
      ensures servers == old(servers)[name := server]
    {
      servers := servers[name := server];
    }

    /** Whoever was given the old server sees it dead from now on. */
    method DeleteServer(name: nat)
      modifies this`servers
      ensures servers == old(servers)[name := null] && Server(name) == null
    {
      servers := servers[name := null];
    }

    method Connect(end: nat, name: nat)
      modifies this`connections
      ensures connections == old(connections)[end := Some(name)]
    {
      connections := connections[end := Some(name)];
    }

    method Enable(end: nat, on: bool)
      modifies this`enabled
      ensures enabled == old(enabled)[end := on]
    {
      enabled := enabled[end := on];
    }
  }

  class Config {
    const n: nat
    const net: Network
    var connected: seq<bool>
    var saved: seq<Persister?>
    var rafts: seq<Raft?>
    var endnames: seq<seq<nat>>   // empty for nil

    predicate Sized()
      reads this
    {
      && |connected| == |saved| == |rafts| == |endnames| == n
      && forall i :: 0 <= i < n ==> endnames[i] == [] || |endnames[i]| == n
    }

    constructor (n: nat, net: Network)
      ensures this.n == n && this.net == net && Sized()
      ensures forall i :: 0 <= i < n ==> saved[i] == null && rafts[i] == null && endnames[i] == [] && !connected[i]
    {
      this.n, this.net := n, net;
      connected := seq(n, i => false);
      saved := seq(n, i => null);
      rafts := seq(n, i => null);
      endnames := seq(n, i => []);
    }

    /** The ends from i and to i, as far as they have names. */
    ghost predicate Touches(i: nat, end: nat)
      requires Sized() && i < n
      reads this
    {
      || (endnames[i] != [] && end in endnames[i])
      || exists j :: 0 <= j < n && endnames[j] != [] && end == endnames[j][i]
    }

    method Disconnect(i: nat)
      requires Sized() && i < n
      modifies this`connected, net`enabled
      ensures connected == old(connected)[i := false] && Sized()
      ensures forall end :: net.On(end) <==> old(net.On(end)) && !old(Touches(i, end))
    {
      connected := connected[i := false];
      var j := 0;
      while j < n
        invariant j <= n
        invariant forall end :: net.On(end) <==> old(net.On(end)) && !(endnames[i] != [] && end in endnames[i][..j])
        modifies net`enabled
      {
        if endnames[i] != [] {
          net.Enable(endnames[i][j], false);
        }
        j := j + 1;
      }
      label Out:
      j := 0;
      while j < n
        invariant j <= n
        invariant forall end :: net.On(end) <==>
                    old@Out(net.On(end)) && !exists q :: 0 <= q < j && endnames[q] != [] && end == endnames[q][i]
        modifies net`enabled
      {
        if endnames[j] != [] {
          net.Enable(endnames[j][i], false);
        }
        j := j + 1;
      }
    }

    /** crash1: the network forgets the server before its persister is superseded. What was saved is saved
        still, in a persister that the old peer does not know. */
    method Crash1(i: nat)
      requires Sized() && i < n
      modifies this`connected, this`saved, this`rafts, net`enabled, net`servers
      ensures Sized() && net.servers == old(net.servers)[i := null]
      ensures connected == old(connected)[i := false]
      ensures forall end :: net.On(end) <==> old(net.On(end)) && !old(Touches(i, end))
      ensures saved[i] == null <==> old(saved)[i] == null
      ensures saved[i] != null ==> fresh(saved[i]) && saved[i].raftstate == old(saved[i].raftstate)
      ensures saved[i] != null ==> saved[i].snapshot == []
      ensures rafts == old(rafts)[i := null]
      ensures saved == old(saved)[i := saved[i]]
    {
      Disconnect(i);
      net.DeleteServer(i);
      if saved[i] != null {
        var copy := saved[i].Copy();
        saved := saved[i := copy];
      }
      if rafts[i] != null {
        rafts := rafts[i := null];
      }
      if saved[i] != null {
        var raftlog := saved[i].ReadRaftState();
        var again := new Persister();
        again.SaveRaftState(raftlog);
        saved := saved[i := again];
      }
    }

    /** The fresh ends of start1, each connected to its server; false if a name is taken. */
    method NewEnds(names: seq<nat>) returns (ok: bool)
      requires |names| == n
      modifies net
      ensures ok <==> (forall j :: 0 <= j < n ==> names[j] !in old(net.ends)) && NoRepeats(names)
      ensures ok ==> net.ends == old(net.ends) + (set q | 0 <= q < n :: names[q])
      ensures ok ==> forall j :: 0 <= j < n ==> net.To(names[j]) == Some(j)
      ensures ok ==> forall end :: net.On(end) <==> old(net.On(end)) && end !in names
      ensures forall end :: end !in names ==> net.To(end) == old(net.To(end))
      ensures net.servers == old(net.servers)
    {
      var j := 0;
      while j < n
        invariant j <= n
        invariant net.ends == old(net.ends) + (set q | 0 <= q < j :: names[q])
        invariant net.servers == old(net.servers)
        invariant forall q :: 0 <= q < j ==> names[q] !in old(net.ends)
        invariant forall q :: 0 <= q < j ==> names[q] in net.connections && net.connections[names[q]] == Some(q)
        invariant NoRepeats(names[..j])
        invariant forall end :: net.On(end) <==> old(net.On(end)) && end !in names[..j]
        invariant forall end :: end !in names ==> net.To(end) == old(net.To(end))
      {
        ok := net.MakeEnd(names[j]);
        if !ok {
          assert names[j] in old(net.ends) || exists q :: 0 <= q < j && names[q] == names[j];
          return;
        }
        net.Connect(names[j], j);
        j := j + 1;
      }
      ok := true;
      assert names[..n] == names;
    }

    /** So that the old peer does not overwrite what the new one saves. */
    method FreshPersister(i: nat) returns (p: Persister)
      requires Sized() && i < n
      modifies this`saved
      ensures fresh(p) && saved == old(saved)[i := p]
      ensures p.raftstate == if old(saved)[i] == null then None else old(saved[i].raftstate)
      ensures p.snapshot == if old(saved)[i] == null then [] else old(saved[i].snapshot)
    {
      if saved[i] != null {
        p := saved[i].Copy();
      } else {
        p := new Persister();
      }
      saved := saved[i := p];
    }

    /** The new peer over its persister, and a server object for it. */
    method Launch(i: nat, p: Persister)
      requires Sized() && i < n
      modifies this`rafts, net`servers
      ensures |rafts| == n && rafts == old(rafts)[i := rafts[i]]
      ensures rafts[i] != null && fresh(rafts[i]) && rafts[i].persister == p && rafts[i].View() == Boot(p.raftstate)
      ensures i in net.servers && net.servers[i] != null && fresh(net.servers[i]) && net.servers[i].rcvr == rafts[i]
      ensures net.servers == old(net.servers)[i := net.servers[i]]
    {
      var rf := new Raft.Make(i, n, p);
      rafts := rafts[i := rf];
      var srv := new RpcServer(rf);
      net.AddServer(i, srv);
    }

    /** start1, with the names it draws for the new ends. The new peer starts from the last saved state, or
        from nothing, over a persister of its own, behind a server object that no old request knows. */
    method Start1(i: nat, names: seq<nat>) returns (ok: bool)
      requires Sized() && i < n && |names| == n
      modifies this`connected, this`saved, this`rafts, this`endnames, net
      ensures Sized()
      ensures ok <==> (forall j :: 0 <= j < n ==> names[j] !in old(net.ends)) && NoRepeats(names)
      ensures ok ==> saved[i] != null && fresh(saved[i]) && saved == old(saved)[i := saved[i]]
      ensures ok ==> saved[i].raftstate == if old(saved)[i] == null then None else old(saved[i].raftstate)
      ensures ok ==> saved[i].snapshot == []
      ensures connected == old(connected)[i := false] && endnames == old(endnames)[i := names]
      ensures ok ==> forall j :: 0 <= j < n ==> net.To(names[j]) == Some(j)
      ensures forall end :: end !in names ==> net.To(end) == old(net.To(end))
      ensures ok ==> forall end :: net.On(end) <==> old(net.On(end)) && !old(Touches(i, end)) && end !in names
      ensures ok ==> rafts[i] != null && fresh(rafts[i]) && rafts == old(rafts)[i := rafts[i]]
      ensures ok ==> rafts[i].persister == saved[i] && rafts[i].View() == Boot(saved[i].raftstate)
      ensures ok ==> i in net.servers && net.servers[i] != null && fresh(net.servers[i])
      ensures ok ==> net.servers[i].rcvr == rafts[i]
      ensures ok ==> net.servers == old(net.servers)[i := net.servers[i]]
    {
      hide NoRepeats, Boot, Config.Touches, Network.On, Network.To;
      Crash1(i);
      endnames := endnames[i := names];
      ok := NewEnds(names);
      if !ok {
        return;
      }
      var p := FreshPersister(i);
      Launch(i, p);
    }
  }

  predicate NoRepeats(names: seq<nat>) {
    forall i, j :: 0 <= i < j < |names| ==> names[i] != names[j]
  }
}
