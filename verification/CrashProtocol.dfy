/**
 Network, persister and restart, interleaved at the grain of their locks. A handler that has written to
 the persister of a server that is being replaced must not be reported as done; a handler that is
 reported as done must have written before the persister was copied.
 */
module CrashProtocol {

  /** Every SaveRaftState is a write of its own. A persister is the list of the writes that made it what
      it is: the last one is its content, a copy inherits the list, and a longer list is a later state. */
  type Write = nat

  type Disk = seq<Write>

  /** One life of a server: its name, its persister, and what it read back when it was made. */
  datatype Incarnation = Incarnation(name: nat, pid: nat, readBack: Disk)

  datatype Phase =
    | Sent                                      // on its way to ProcessReq
    | Received(name: nat, k: nat)               // ReadEndnameInfo saw incarnation k of the named server
    | Handled(name: nat, k: nat, disk: Disk)    // the handler is done; this is what it left persisted
    | Passed(k: nat, disk: Disk)                // the last IsServerDead said no
    | Returned(k: nat, disk: Disk)              // Call returned true
    | Failed                                    // Call returned false

  datatype Call = Call(end: nat, phase: Phase)

  /** Where the harness is with one server: crash1 deletes, copies and rereads; start1 goes on to
      prepare a persister, make the server and add it. */
  datatype Stage = Stopped | Deleted | Copied | Prepared | Made(k: nat) | Up

  datatype Net = Net(
    enabled: map<nat, bool>,
    connections: map<nat, nat>,
    servers: map<nat, nat>,      // the incarnation that a name stands for; absent for nil
    incs: seq<Incarnation>,
    disks: seq<Disk>,
    saved: map<nat, nat>,        // cfg.saved
    stages: map<nat, Stage>,
    calls: seq<Call>)

  datatype Act =
    | Connect(end: nat, name: nat)
    | Enable(end: nat, on: bool)
    | Issue(end: nat)
    | Receive(j: nat)
    | Drop(j: nat)
    | Handle(j: nat, writes: Disk)
    | GiveUp(j: nat)
    | Check(j: nat)
    | DropReply(j: nat)
    | Return(j: nat)
    | Save(k: nat, write: Write)
    | DeleteServer(name: nat)
    | CopySaved(name: nat)
    | Reread(name: nat)
    | Prepare(name: nat)
    | Make(name: nat)
    | AddServer(name: nat)

  predicate IsEnabled(s: Net, end: nat) {
    end in s.enabled && s.enabled[end]
  }

  /** IsServerDead, asked with the name and the server object that ReadEndnameInfo returned. */
  predicate IsServerDead(s: Net, end: nat, name: nat, k: nat) {
    !IsEnabled(s, end) || !(name in s.servers && s.servers[name] == k)
  }

  function StageOf(s: Net, name: nat): Stage {
    if name in s.stages then s.stages[name] else Stopped
  }

  predicate HasDisk(s: Net, name: nat) {
    name in s.saved && s.saved[name] < |s.disks|
  }

  predicate Lives(s: Net, k: nat) {
    k < |s.incs| && s.incs[k].pid < |s.disks|
  }

  /** The order of the harness: the program deletes the server before it copies the persister. A careless
      harness would copy first; it is here only to show that the order matters. */
  predicate InOrder(stage: Stage, a: Act, careful: bool) {
    match a
    case DeleteServer(_) => if careful then stage.Up? || stage.Stopped? else stage.Copied?
    case CopySaved(_) => if careful then stage.Deleted? else stage.Up? || stage.Stopped?
    case Reread(_) => if careful then stage.Copied? else stage.Deleted?
    case Prepare(_) => stage.Stopped?
    case Make(_) => stage.Prepared?
    case AddServer(_) => stage.Made?
    case _ => true
  }

  predicate CanAct(s: Net, a: Act, careful: bool) {
    match a
    case Connect(_, _) => true
    case Enable(_, _) => true
    case Issue(_) => true
    case Receive(j) => j < |s.calls| && s.calls[j].phase.Sent?
    case Drop(j) => j < |s.calls| && s.calls[j].phase.Received?
    case Handle(j, _) => j < |s.calls| && s.calls[j].phase.Received? && Lives(s, s.calls[j].phase.k)
    // the waiting loop sees the server dead, before or after the handler is done
    case GiveUp(j) =>
      && j < |s.calls| && (s.calls[j].phase.Received? || s.calls[j].phase.Handled?)
      && IsServerDead(s, s.calls[j].end, s.calls[j].phase.name, s.calls[j].phase.k)
    case Check(j) => j < |s.calls| && s.calls[j].phase.Handled?
    case DropReply(j) => j < |s.calls| && s.calls[j].phase.Passed?
    case Return(j) => j < |s.calls| && s.calls[j].phase.Passed?
    // any incarnation may write at any time, also after its server is gone: it cannot really be killed
    case Save(k, _) => Lives(s, k)
    case DeleteServer(name) => InOrder(StageOf(s, name), a, careful)
    case CopySaved(name) => InOrder(StageOf(s, name), a, careful) && (name in s.saved ==> HasDisk(s, name))
    case Reread(name) => InOrder(StageOf(s, name), a, careful) && (name in s.saved ==> HasDisk(s, name))
    case Prepare(name) => InOrder(StageOf(s, name), a, careful) && (name in s.saved ==> HasDisk(s, name))
    case Make(name) => InOrder(StageOf(s, name), a, careful) && HasDisk(s, name)
    case AddServer(name) => InOrder(StageOf(s, name), a, careful)
  }

  function Move(s: Net, j: nat, phase: Phase): Net
    requires j < |s.calls|
  {
    s.(calls := s.calls[j := s.calls[j].(phase := phase)])
  }

  function Written(s: Net, pid: nat, writes: Disk): Net
    requires pid < |s.disks|
  {
    s.(disks := s.disks[pid := s.disks[pid] + writes])
  }

  /** cfg.saved[name] becomes a fresh persister with the old content, if there is an old one. */
  function Copy(s: Net, name: nat): Net
    requires name in s.saved ==> HasDisk(s, name)
  {
    if name in s.saved
    then s.(disks := s.disks + [s.disks[s.saved[name]]], saved := s.saved[name := |s.disks|])
    else s
  }

  function Staged(s: Net, name: nat, stage: Stage): Net {
    s.(stages := s.stages[name := stage])
  }

  function Act1(s: Net, a: Act, careful: bool): Net
    requires CanAct(s, a, careful)
  {
    match a
    case Connect(end, name) => s.(connections := s.connections[end := name])
    case Enable(end, on) => s.(enabled := s.enabled[end := on])
    case Issue(end) => s.(calls := s.calls + [Call(end, Sent)])
    case Receive(j) =>
      var end := s.calls[j].end;
      if IsEnabled(s, end) && end in s.connections && s.connections[end] in s.servers
      then Move(s, j, Received(s.connections[end], s.servers[s.connections[end]]))
      else Move(s, j, Failed)
    case Drop(j) => Move(s, j, Failed)
    case Handle(j, writes) =>
      var phase := s.calls[j].phase;
      var pid := s.incs[phase.k].pid;
      Move(Written(s, pid, writes), j, Handled(phase.name, phase.k, s.disks[pid] + writes))
    case GiveUp(j) => Move(s, j, Failed)
    case Check(j) =>
      var phase := s.calls[j].phase;
      if IsServerDead(s, s.calls[j].end, phase.name, phase.k) then Move(s, j, Failed)
      else Move(s, j, Passed(phase.k, phase.disk))
    case DropReply(j) => Move(s, j, Failed)
    case Return(j) => Move(s, j, Returned(s.calls[j].phase.k, s.calls[j].phase.disk))
    case Save(k, write) => Written(s, s.incs[k].pid, [write])
    case DeleteServer(name) => Staged(s.(servers := s.servers - {name}), name, Deleted)
    case CopySaved(name) => Staged(Copy(s, name), name, Copied)
    case Reread(name) => Staged(Copy(s, name), name, Stopped)
    case Prepare(name) =>
      if name in s.saved then Staged(Copy(s, name), name, Prepared)
      else Staged(s.(disks := s.disks + [[]], saved := s.saved[name := |s.disks|]), name, Prepared)
    case Make(name) =>
      Staged(s.(incs := s.incs + [Incarnation(name, s.saved[name], s.disks[s.saved[name]])]), name, Made(|s.incs|))
    case AddServer(name) => Staged(s.(servers := s.servers[name := StageOf(s, name).k]), name, Up)
  }

  const START := Net(map[], map[], map[], [], [], map[], map[], [])

  datatype Trace = Trace(nets: seq<Net>, acts: seq<Act>)

  ghost predicate IsTrace(t: Trace, careful: bool) {
    && |t.nets| == |t.acts| + 1
    && t.nets[0] == START
    && forall i :: 0 <= i < |t.acts| ==>
                     CanAct(t.nets[i], t.acts[i], careful) && t.nets[i + 1] == Act1(t.nets[i], t.acts[i], careful)
  }

  // ---- invariants ----

  /** Incarnation k is the last one of its name, and writes where the harness will copy from. */
  ghost predicate Current(s: Net, name: nat, k: nat) {
    && k < |s.incs| && s.incs[k].name == name
    && name in s.saved && s.saved[name] == s.incs[k].pid
    && forall m :: k < m < |s.incs| ==> s.incs[m].name != name
  }

  ghost predicate ServerOk(s: Net, name: nat) {
    && (name in s.servers ==> StageOf(s, name).Up? && Current(s, name, s.servers[name]))
    && (StageOf(s, name).Made? ==> Current(s, name, StageOf(s, name).k))
    && (name in s.saved ==> HasDisk(s, name))
  }

  ghost predicate HarnessOk(s: Net) {
    && (forall name :: ServerOk(s, name))
    && (forall k :: 0 <= k < |s.incs| ==> Lives(s, k))
  }

  ghost predicate WroteIt(s: Net, k: nat, disk: Disk) {
    Lives(s, k) && disk <= s.disks[s.incs[k].pid]
  }

  /** Every later incarnation will read back the disk or a later state, and those that are there have. */
  ghost predicate Safe(s: Net, k: nat, disk: Disk) {
    && k < |s.incs|
    && HasDisk(s, s.incs[k].name) && disk <= s.disks[s.saved[s.incs[k].name]]
    && forall m :: k < m < |s.incs| && s.incs[m].name == s.incs[k].name ==> disk <= s.incs[m].readBack
  }

  ghost predicate CallOk(s: Net, phase: Phase) {
    match phase
    case Received(name, k) => k < |s.incs| && s.incs[k].name == name
    case Handled(name, k, disk) => WroteIt(s, k, disk) && s.incs[k].name == name
    case Passed(k, disk) => Safe(s, k, disk)
    case Returned(k, disk) => Safe(s, k, disk)
    case _ => true
  }

  ghost predicate NetOk(s: Net) {
    HarnessOk(s) && forall j :: 0 <= j < |s.calls| ==> CallOk(s, s.calls[j].phase)
  }

  /** Of the server `name`: what no act on another server touches. */
  ghost predicate Untouched(s: Net, s': Net, name: nat) {
    && StageOf(s', name) == StageOf(s, name)
    && (name in s'.servers <==> name in s.servers)
    && (name in s.servers ==> s'.servers[name] == s.servers[name])
    && (name in s'.saved <==> name in s.saved)
    && (name in s.saved ==> s'.saved[name] == s.saved[name])
  }

  /** Incarnations are only added, disks are only added or extended. */
  ghost predicate Grown(s: Net, s': Net) {
    && |s.incs| <= |s'.incs| && (forall k :: 0 <= k < |s.incs| ==> s'.incs[k] == s.incs[k])
    && |s.disks| <= |s'.disks| && (forall p :: 0 <= p < |s.disks| ==> s.disks[p] <= s'.disks[p])
  }

  predicate OnServer(a: Act) {
    a.DeleteServer? || a.CopySaved? || a.Reread? || a.Prepare? || a.Make? || a.AddServer?
  }

  lemma ActGrows(s: Net, a: Act)
    requires CanAct(s, a, true)
    ensures Grown(s, Act1(s, a, true))
  {
  }

  lemma ActLocal(s: Net, a: Act, name: nat)
    requires CanAct(s, a, true) && !(OnServer(a) && a.name == name)
    ensures Untouched(s, Act1(s, a, true), name)
    ensures forall m :: |s.incs| <= m < |Act1(s, a, true).incs| ==> Act1(s, a, true).incs[m].name != name
  {
  }

  lemma ServerStays(s: Net, a: Act, name: nat)
    requires CanAct(s, a, true) && HarnessOk(s)
    ensures ServerOk(Act1(s, a, true), name)
  {
    if OnServer(a) && a.name == name {
      OwnActStays(s, a);
    } else {
      hide Act1, CanAct;
      assert ServerOk(s, name);
      ActLocal(s, a, name);
      ActGrows(s, a);
    }
  }

  /** The acts of the harness on a server, for that server. */
  lemma OwnActStays(s: Net, a: Act)
    requires CanAct(s, a, true) && HarnessOk(s) && OnServer(a)
    ensures ServerOk(Act1(s, a, true), a.name)
  {
    assert ServerOk(s, a.name);
  }

  lemma HarnessStays(s: Net, a: Act)
    requires CanAct(s, a, true) && HarnessOk(s)
    ensures HarnessOk(Act1(s, a, true))
  {
    var s' := Act1(s, a, true);
    forall name ensures ServerOk(s', name) { ServerStays(s, a, name); }
    forall k | 0 <= k < |s'.incs| ensures Lives(s', k) {
      ActGrows(s, a);
      assert k < |s.incs| ==> Lives(s, k);
    }
  }

  /** The heart of the protocol: when the check passes, the server is still the one in the network, so its
      persister has not been superseded, and what the handler wrote is where the next copy is taken from. */
  lemma CheckedIsSafe(s: Net, end: nat, name: nat, k: nat, disk: Disk)
    requires HarnessOk(s) && WroteIt(s, k, disk) && s.incs[k].name == name
    requires !IsServerDead(s, end, name, k)
    ensures Safe(s, k, disk)
  {
    assert ServerOk(s, name);
  }

  lemma SafeStays(s: Net, a: Act, k: nat, disk: Disk)
    requires CanAct(s, a, true) && HarnessOk(s) && Safe(s, k, disk)
    ensures Safe(Act1(s, a, true), k, disk)
  {
    var name := s.incs[k].name;
    ActGrows(s, a);
    if !(OnServer(a) && a.name == name) {
      ActLocal(s, a, name);
    }
  }

  lemma CallStays(s: Net, a: Act, phase: Phase)
    requires CanAct(s, a, true) && HarnessOk(s) && CallOk(s, phase)
    ensures CallOk(Act1(s, a, true), phase)
  {
    if phase.Passed? || phase.Returned? {
      SafeStays(s, a, phase.k, phase.disk);
    } else if phase.Received? || phase.Handled? {
      ActGrows(s, a);
    }
  }

  lemma NetStays(s: Net, a: Act)
    requires CanAct(s, a, true) && NetOk(s)
    ensures NetOk(Act1(s, a, true))
  {
    var s' := Act1(s, a, true);
    HarnessStays(s, a);
    forall j | 0 <= j < |s'.calls| ensures CallOk(s', s'.calls[j].phase) {
      if j < |s.calls| && s'.calls[j] == s.calls[j] {
        CallStays(s, a, s.calls[j].phase);
      } else {
        MovedOk(s, a, j);
      }
    }
  }

  /** The call that an act moves is in order where it is moved to. */
  lemma MovedOk(s: Net, a: Act, j: nat)
    requires CanAct(s, a, true) && NetOk(s)
    requires j < |Act1(s, a, true).calls|
    requires j < |s.calls| ==> Act1(s, a, true).calls[j] != s.calls[j]
    ensures CallOk(Act1(s, a, true), Act1(s, a, true).calls[j].phase)
  {
    if j < |s.calls| {
      assert CallOk(s, s.calls[j].phase);
      if a.Check? && !IsServerDead(s, s.calls[j].end, s.calls[j].phase.name, s.calls[j].phase.k) {
        CheckedIsSafe(s, s.calls[j].end, s.calls[j].phase.name, s.calls[j].phase.k, s.calls[j].phase.disk);
      } else if a.Receive? {
        var end := s.calls[j].end;
        if end in s.connections && s.connections[end] in s.servers {
          assert ServerOk(s, s.connections[end]);
        }
      }
    }
  }

  lemma {:induction false} TraceOk(t: Trace, i: nat)
    requires IsTrace(t, true) && i < |t.nets|
    ensures NetOk(t.nets[i])
  {
    if i == 0 {
      forall name ensures ServerOk(START, name) {}
    } else {
      TraceOk(t, i - 1);
      NetStays(t.nets[i - 1], t.acts[i - 1]);
    }
  }

  lemma ReturnedStays(s: Net, a: Act, j: nat)
    requires CanAct(s, a, true) && j < |s.calls| && s.calls[j].phase.Returned?
    ensures j < |Act1(s, a, true).calls| && Act1(s, a, true).calls[j] == s.calls[j]
  {
  }

  lemma {:induction false} CallFixed(t: Trace, i: nat, i': nat, j: nat)
    requires IsTrace(t, true) && i <= i' < |t.nets| && j < |t.nets[i].calls| && t.nets[i].calls[j].phase.Returned?
    ensures j < |t.nets[i'].calls| && t.nets[i'].calls[j] == t.nets[i].calls[j]
  {
    hide Act1, CanAct;
    if i < i' {
      CallFixed(t, i, i' - 1, j);
      ReturnedStays(t.nets[i' - 1], t.acts[i' - 1], j);
    }
  }

  // ---- results ----

  /** If Call returned true for a request to incarnation k, then whatever the handler left persisted is a
      prefix of what every later incarnation of that server reads back, now and at any time later, and of
      what is saved for it: the state that the handler left, or a later one. */
  lemma AcknowledgedSurvives(t: Trace, i: nat, i': nat, j: nat, m: nat)
    requires IsTrace(t, true) && i <= i' < |t.nets|
    requires j < |t.nets[i].calls| && t.nets[i].calls[j].phase.Returned?
    ensures var k, disk := t.nets[i].calls[j].phase.k, t.nets[i].calls[j].phase.disk;
            var s := t.nets[i'];
            && k < |s.incs| && s.incs[k].name in s.saved
            && s.saved[s.incs[k].name] < |s.disks| && disk <= s.disks[s.saved[s.incs[k].name]]
            && (k < m < |s.incs| && s.incs[m].name == s.incs[k].name ==> disk <= s.incs[m].readBack)
  {
    CallFixed(t, i, i', j);
    TraceOk(t, i');
    assert CallOk(t.nets[i'], t.nets[i'].calls[j].phase);
  }

  // ---- an old incarnation cannot reach a new one ----

  /** The persister that is saved for a name is that of the last incarnation of the name or of none; of none
      before Make. */
  ghost predicate SavedIsLast(s: Net, name: nat, k: nat) {
    name in s.saved && k < |s.incs| && s.saved[name] == s.incs[k].pid ==>
      && s.incs[k].name == name && !StageOf(s, name).Prepared?
      && forall m :: k < m < |s.incs| ==> s.incs[m].name != name
  }

  ghost predicate SavedApart(s: Net) {
    forall a, b :: a in s.saved && b in s.saved && a != b ==> s.saved[a] != s.saved[b]
  }

  /** No two names have one persister saved for them, and no superseded incarnation has any. */
  ghost predicate PersistersApart(s: Net) {
    SavedApart(s) && forall name: nat, k: nat :: SavedIsLast(s, name, k)
  }

  lemma SavedIsLastStays(s: Net, a: Act, name: nat, k: nat)
    requires CanAct(s, a, true) && HarnessOk(s) && PersistersApart(s)
    ensures SavedIsLast(Act1(s, a, true), name, k)
  {
    assert SavedIsLast(s, name, k);
    if a.Make? {
      MakeIsLast(s, a, name, k);
    } else if OnServer(a) && a.name == name {
      OwnActIsLast(s, a, k);
    } else {
      hide HarnessOk, PersistersApart;
      ActLocal(s, a, name);
      ActGrows(s, a);
      hide CanAct;
    }
  }

  lemma OwnActIsLast(s: Net, a: Act, k: nat)
    requires OnServer(a) && !a.Make? && CanAct(s, a, true) && HarnessOk(s) && SavedIsLast(s, a.name, k)
    ensures SavedIsLast(Act1(s, a, true), a.name, k)
  {
    if k < |s.incs| {
      assert Lives(s, k);
    }
    hide HarnessOk;
  }

  lemma MakeIsLast(s: Net, a: Act, name: nat, k: nat)
    requires CanAct(s, a, true) && HarnessOk(s) && PersistersApart(s) && a.Make?
    ensures SavedIsLast(Act1(s, a, true), name, k)
  {
    assert SavedIsLast(s, name, k) && SavedIsLast(s, a.name, k);
    hide HarnessOk, IsServerDead, IsEnabled, SavedApart;
    if name in s.saved && s.saved[name] == s.saved[a.name] {
      OnlyOwnPersister(s, a.name, name);
    }
  }

  lemma OnlyOwnPersister(s: Net, a: nat, b: nat)
    requires SavedApart(s) && a in s.saved && b in s.saved && s.saved[a] == s.saved[b]
    ensures a == b
  {
  }

  lemma ApartStays(s: Net, a: Act)
    requires CanAct(s, a, true) && HarnessOk(s) && PersistersApart(s)
    ensures PersistersApart(Act1(s, a, true))
  {
    forall name: nat, k: nat ensures SavedIsLast(Act1(s, a, true), name, k) {
      SavedIsLastStays(s, a, name, k);
    }
    hide SavedIsLast, Current, IsServerDead;
    assert forall name :: name in s.saved ==> ServerOk(s, name);
  }

  lemma {:induction false} TraceApart(t: Trace, i: nat)
    requires IsTrace(t, true) && i < |t.nets|
    ensures PersistersApart(t.nets[i])
  {
    hide Act1, CanAct;
    if i > 0 {
      TraceApart(t, i - 1);
      TraceOk(t, i - 1);
      ApartStays(t.nets[i - 1], t.acts[i - 1]);
    }
  }

  /** A write by an incarnation lands in its own persister. If a later incarnation of its name exists, it
      reaches nothing that is saved for any name, and so nothing that an incarnation still to come reads back. */
  lemma OldWritesStayOut(t: Trace, i: nat, k: nat, write: Write, m: nat, name: nat)
    requires IsTrace(t, true) && i < |t.acts| && t.acts[i] == Save(k, write)
    requires k < m < |t.nets[i].incs| && t.nets[i].incs[m].name == t.nets[i].incs[k].name
    ensures
      var s, s' := t.nets[i], t.nets[i + 1];
      && s.incs[k].pid < |s.disks| == |s'.disks|
      && s'.disks[s.incs[k].pid] == s.disks[s.incs[k].pid] + [write]
      && s'.incs == s.incs && s'.saved == s.saved
      && (name in s.saved ==> s.saved[name] < |s.disks| && s'.disks[s.saved[name]] == s.disks[s.saved[name]])
  {
    TraceOk(t, i);
    TraceApart(t, i);
    var s := t.nets[i];
    assert CanAct(s, t.acts[i], true);
    assert ServerOk(s, name) && SavedIsLast(s, name, k);
  }

  ghost function Last(t: Trace): Net
    requires t.nets != []
  {
    t.nets[|t.nets| - 1]
  }

  /** One more act at the end of a trace of the careless harness. */
  lemma Push(t: Trace, a: Act, s': Net) returns (t': Trace)
    requires IsTrace(t, false) && CanAct(Last(t), a, false) && Act1(Last(t), a, false) == s'
    ensures IsTrace(t', false) && Last(t') == s'
  {
    hide Act1, CanAct;
    t' := Trace(t.nets + [s'], t.acts + [a]);
  }

  /** A first life of server 0, and a request to it that its server object has been chosen for. */
  const SERVING := Net(map[7 := true], map[7 := 0], map[0 := 0], [Incarnation(0, 0, [])], [[]], map[0 := 0],
                       map[0 := Up], [Call(7, Received(0, 0))])

  /** The first life is there, before anyone connects. */
  const ALIVE := START.(disks := [[]], saved := map[0 := 0], incs := [Incarnation(0, 0, [])],
                        servers := map[0 := 0], stages := map[0 := Up])

  lemma Alive() returns (t: Trace)
    ensures IsTrace(t, false) && Last(t) == ALIVE
  {
    t := Trace([START], []);
    var s1 := START.(disks := [[]], saved := map[0 := 0], stages := map[0 := Prepared]);
    t := Push(t, Prepare(0), s1);
    var s2 := s1.(incs := [Incarnation(0, 0, [])], stages := map[0 := Made(0)]);
    t := Push(t, Make(0), s2);
    t := Push(t, AddServer(0), ALIVE);
  }

  lemma Serving() returns (t: Trace)
    ensures IsTrace(t, false) && Last(t) == SERVING
  {
    hide IsTrace;
    t := Alive();
    var s1 := ALIVE.(connections := map[7 := 0]);
    t := Push(t, Connect(7, 0), s1);
    var s2 := s1.(enabled := map[7 := true]);
    t := Push(t, Enable(7, true), s2);
    var s3 := s2.(calls := [Call(7, Sent)]);
    t := Push(t, Issue(7), s3);
    t := Push(t, Receive(0), SERVING);
  }

  /** The persister has been copied, then the handler runs and its call returns true. */
  const ANSWERED := SERVING.(disks := [[5], []], saved := map[0 := 1], stages := map[0 := Copied],
                             calls := [Call(7, Returned(0, [5]))])

  /** The persister is copied too early. */
  const COPIED := SERVING.(disks := [[], []], saved := map[0 := 1], stages := map[0 := Copied])

  lemma CopiedFirst() returns (t: Trace)
    ensures IsTrace(t, false) && Last(t) == COPIED
  {
    hide IsTrace;
    t := Serving();
    t := Push(t, CopySaved(0), COPIED);
  }

  lemma AnsweredAfterCopy() returns (t: Trace)
    ensures IsTrace(t, false) && Last(t) == ANSWERED
  {
    hide IsTrace;
    t := CopiedFirst();
    var s2 := COPIED.(disks := [[5], []], calls := [Call(7, Handled(0, 0, [5]))]);
    assert [] + [5] == [5];
    t := Push(t, Handle(0, [5]), s2);
    var s3 := s2.(calls := [Call(7, Passed(0, [5]))]);
    t := Push(t, Check(0), s3);
    t := Push(t, Return(0), ANSWERED);
  }

  /** Only now is the server deleted. */
  const DELETED := ANSWERED.(servers := map[], stages := map[0 := Deleted])

  lemma DeletedAfterAnswer() returns (t: Trace)
    ensures IsTrace(t, false) && Last(t) == DELETED
  {
    hide IsTrace;
    t := AnsweredAfterCopy();
    t := Push(t, DeleteServer(0), DELETED);
  }

  /** The rest of crash1. */
  const STOPPED := DELETED.(disks := [[5], [], []], saved := map[0 := 2], stages := map[0 := Stopped])

  lemma StoppedAtLast() returns (t: Trace)
    ensures IsTrace(t, false) && Last(t) == STOPPED
  {
    hide IsTrace;
    t := DeletedAfterAnswer();
    t := Push(t, Reread(0), STOPPED);
  }

  /** And start1 up to its Make. */
  const PREPARED := STOPPED.(disks := [[5], [], [], []], saved := map[0 := 3], stages := map[0 := Prepared])

  lemma PreparedAgain() returns (t: Trace)
    ensures IsTrace(t, false) && Last(t) == PREPARED
  {
    hide IsTrace;
    t := StoppedAtLast();
    t := Push(t, Prepare(0), PREPARED);
  }

  /** Had the harness copied the persister before it deleted the server, an acknowledged write would be
      lost: the handler writes to the old persister after the copy, and the check still passes. */
  lemma CopyingFirstLosesIt() returns (t: Trace)
    ensures IsTrace(t, false)
    ensures var s := t.nets[|t.nets| - 1];
            && |s.calls| == 1 && s.calls[0].phase == Returned(0, [5])
            && |s.incs| == 2 && s.incs[0].name == s.incs[1].name && s.incs[1].readBack == []
  {
    hide IsTrace;
    t := PreparedAgain();
    var incs := [Incarnation(0, 0, []), Incarnation(0, 3, [])];
    t := Push(t, Make(0), PREPARED.(incs := incs, stages := map[0 := Made(1)]));
  }
}
