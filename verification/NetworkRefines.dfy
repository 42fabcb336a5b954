/**
 The network object and the crash protocol speak of the same thing: with a server object for each
 incarnation, the maps of the object mirror the state of the protocol, the questions that ProcessReq asks
 have the same answers, and each method does to the maps what its act does to the state.
 */
module NetworkRefines {
  import opened RaftTypes
  import opened Harness
  import opened CrashProtocol

  /** The maps of a Network, as a value. */
  datatype Maps = Maps(
    enabled: map<nat, bool>, servers: map<nat, RpcServer?>, connections: map<nat, Option<nat>>)
  {
    predicate On(end: nat) {
      end in enabled && enabled[end]
    }

    function To(end: nat): Option<nat> {
      if end in connections then connections[end] else None
    }

    function At(name: nat): RpcServer? {
      if name in servers then servers[name] else null
    }
  }

  function MapsOf(net: Network): Maps
    reads net
  {
    Maps(net.enabled, net.servers, net.connections)
  }

  function ServerIn(s: Net, objects: seq<RpcServer>, name: nat): RpcServer? {
    if name in s.servers && s.servers[name] < |objects| then objects[s.servers[name]] else null
  }

  /** objects[k] is the server object of incarnation k. */
  ghost predicate Mirrors(m: Maps, s: Net, objects: seq<RpcServer>) {
    && (forall end :: m.On(end) <==> IsEnabled(s, end))
    && (forall end: nat :: m.To(end) == if end in s.connections then Some(s.connections[end]) else None)
    && (forall name :: m.At(name) == ServerIn(s, objects, name))
    && |objects| == |s.incs| && (forall i, j :: 0 <= i < j < |objects| ==> objects[i] != objects[j])
    && (forall name :: name in s.servers ==> s.servers[name] < |objects|)
  }

  /** ReadEndnameInfo chooses the incarnation that the protocol's Receive chooses, or neither does. */
  lemma SameChoice(m: Maps, s: Net, objects: seq<RpcServer>, j: nat)
    requires Mirrors(m, s, objects) && CanAct(s, Receive(j), true)
    ensures
      var end, phase := s.calls[j].end, Act1(s, Receive(j), true).calls[j].phase;
      && (phase.Received? <==> m.On(end) && m.To(end).Some? && m.At(m.To(end).value) != null)
      && (phase.Received? ==>
            phase.k < |objects| && m.To(end) == Some(phase.name) && m.At(phase.name) == objects[phase.k])
  {
    var end := s.calls[j].end;
    if end in s.connections {
      assert m.At(s.connections[end]) == ServerIn(s, objects, s.connections[end]);
    }
  }

  /** IsServerDead compares objects, the protocol compares incarnations: the answer is the same. */
  lemma SameVerdict(m: Maps, s: Net, objects: seq<RpcServer>, end: nat, name: nat, k: nat)
    requires Mirrors(m, s, objects) && k < |objects|
    ensures !(m.On(end) && m.At(name) == objects[k]) <==> CrashProtocol.IsServerDead(s, end, name, k)
  {
    assert m.At(name) == ServerIn(s, objects, name);
  }

  /** The methods of the network, as they change the maps, against the acts of the protocol. */
  lemma EnableMirrors(m: Maps, s: Net, objects: seq<RpcServer>, end: nat, on: bool)
    requires Mirrors(m, s, objects)
    ensures Mirrors(m.(enabled := m.enabled[end := on]), Act1(s, Enable(end, on), true), objects)
  {
    var m', s' := m.(enabled := m.enabled[end := on]), Act1(s, Enable(end, on), true);
    forall e ensures m'.On(e) <==> IsEnabled(s', e) { assert m.On(e) <==> IsEnabled(s, e); }
    forall e: nat ensures m'.To(e) == m.To(e) {}
    forall name ensures m'.At(name) == ServerIn(s', objects, name) { assert m.At(name) == ServerIn(s, objects, name); }
  }

  lemma ConnectMirrors(m: Maps, s: Net, objects: seq<RpcServer>, end: nat, name: nat)
    requires Mirrors(m, s, objects)
    ensures Mirrors(m.(connections := m.connections[end := Some(name)]), Act1(s, Connect(end, name), true), objects)
  {
    var m', s' := m.(connections := m.connections[end := Some(name)]), Act1(s, Connect(end, name), true);
    forall e ensures m'.On(e) <==> IsEnabled(s', e) { assert m.On(e) <==> IsEnabled(s, e); }
    forall e: nat ensures m'.To(e) == if e in s'.connections then Some(s'.connections[e]) else None {
      assert m.To(e) == if e in s.connections then Some(s.connections[e]) else None;
    }
    forall q ensures m'.At(q) == ServerIn(s', objects, q) { assert m.At(q) == ServerIn(s, objects, q); }
  }

  lemma SameEnds(m: Maps, m': Maps, s: Net, s': Net, objects: seq<RpcServer>, objects': seq<RpcServer>)
    requires Mirrors(m, s, objects) && m'.enabled == m.enabled && m'.connections == m.connections
    requires s'.enabled == s.enabled && s'.connections == s.connections
    requires forall name :: m'.At(name) == ServerIn(s', objects', name)
    requires |objects'| == |s'.incs| && (forall i, j :: 0 <= i < j < |objects'| ==> objects'[i] != objects'[j])
    requires forall name :: name in s'.servers ==> s'.servers[name] < |objects'|
    ensures Mirrors(m', s', objects')
  {
    forall e ensures m'.On(e) <==> IsEnabled(s', e) { assert m.On(e) <==> IsEnabled(s, e); }
    forall e: nat ensures m'.To(e) == if e in s'.connections then Some(s'.connections[e]) else None {
      assert m.To(e) == if e in s.connections then Some(s.connections[e]) else None;
    }
  }

  lemma DeleteMirrors(m: Maps, s: Net, objects: seq<RpcServer>, name: nat)
    requires Mirrors(m, s, objects) && CanAct(s, DeleteServer(name), true)
    ensures Mirrors(m.(servers := m.servers[name := null]), Act1(s, DeleteServer(name), true), objects)
  {
    var m', s' := m.(servers := m.servers[name := null]), Act1(s, DeleteServer(name), true);
    forall q ensures m'.At(q) == ServerIn(s', objects, q) { assert m.At(q) == ServerIn(s, objects, q); }
    SameEnds(m, m', s, s', objects, objects);
  }

  /** Making a peer and giving it a server object that is new. */
  lemma MakeMirrors(m: Maps, s: Net, objects: seq<RpcServer>, name: nat, server: RpcServer)
    requires Mirrors(m, s, objects) && CanAct(s, Make(name), true) && server !in objects
    ensures Mirrors(m, Act1(s, Make(name), true), objects + [server])
  {
    var s', objects' := Act1(s, Make(name), true), objects + [server];
    forall q ensures m.At(q) == ServerIn(s', objects', q) { assert m.At(q) == ServerIn(s, objects, q); }
    SameEnds(m, m, s, s', objects, objects');
  }

  /** Adding the object of the incarnation that was made. */
  lemma AddMirrors(m: Maps, s: Net, objects: seq<RpcServer>, name: nat, server: RpcServer)
    requires Mirrors(m, s, objects) && CanAct(s, AddServer(name), true)
    requires StageOf(s, name).k < |objects| && objects[StageOf(s, name).k] == server
    ensures Mirrors(m.(servers := m.servers[name := server]), Act1(s, AddServer(name), true), objects)
  {
    var m', s' := m.(servers := m.servers[name := server]), Act1(s, AddServer(name), true);
    forall q ensures m'.At(q) == ServerIn(s', objects, q) { assert m.At(q) == ServerIn(s, objects, q); }
    SameEnds(m, m', s, s', objects, objects);
  }

  /** crash1 from the network's side, on the objects themselves: DeleteServer leaves an object that mirrors
      the protocol after its DeleteServer, so every call in flight to the old server is refused from now on. */
  method DeleteRefines(net: Network, ghost s: Net, ghost objects: seq<RpcServer>, name: nat)
    requires Mirrors(MapsOf(net), s, objects) && CanAct(s, DeleteServer(name), true)
    modifies net`servers
    ensures Mirrors(MapsOf(net), Act1(s, DeleteServer(name), true), objects)
    ensures forall end, k: nat :: CrashProtocol.IsServerDead(Act1(s, DeleteServer(name), true), end, name, k)
  {
    DeleteMirrors(MapsOf(net), s, objects, name);
    net.DeleteServer(name);
  }

  /** The first look of ProcessReq, on the object: the request is given to a server exactly if the protocol's
      Receive gives it to one, and then to the object of the incarnation that Receive chooses. */
  method ReceiveRefines(net: Network, ghost s: Net, ghost objects: seq<RpcServer>, ghost j: nat, end: nat)
    returns (given: bool, name: Option<nat>, server: RpcServer?)
    requires Mirrors(MapsOf(net), s, objects) && CanAct(s, Receive(j), true) && s.calls[j].end == end
    ensures
      var phase := Act1(s, Receive(j), true).calls[j].phase;
      && (given <==> phase.Received?)
      && (given ==> phase.k < |objects| && name == Some(phase.name) && server == objects[phase.k])
  {
    SameChoice(MapsOf(net), s, objects, j);
    var isEnabled;
    isEnabled, name, server := net.ReadEndnameInfo(end);
    given := isEnabled && name.Some? && server != null;
  }

  /** The last look of ProcessReq, on the object: it says alive exactly if the protocol's Check lets the call pass. */
  method CheckRefines(net: Network, ghost s: Net, ghost objects: seq<RpcServer>, ghost j: nat,
                      end: nat, name: nat, server: RpcServer)
    returns (dead: bool)
    requires Mirrors(MapsOf(net), s, objects) && CanAct(s, Check(j), true)
    requires s.calls[j].end == end && s.calls[j].phase.name == name
    requires s.calls[j].phase.k < |objects| && objects[s.calls[j].phase.k] == server
    ensures !dead <==> Act1(s, Check(j), true).calls[j].phase.Passed?
  {
    SameVerdict(MapsOf(net), s, objects, end, name, s.calls[j].phase.k);
    dead := net.IsServerDead(end, name, server);
  }
}
