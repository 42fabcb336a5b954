/**
 Clerks that resend every request until it is acknowledged, over an append-only committed log.
 A request may land in the log any number of times and arbitrarily late: once for each server to which
 it was sent that started it as leader and whose entry was committed.
 */
module ClerkWorld {
  import opened RaftTypes
  import opened KvReplay
  import opened Uuids

  /** `issued` lists the clerk's operations in program order; `busy` while the last one is being retried. */
  datatype Clerk = Clerk(id: nat, cnt: nat, issued: seq<Op>, busy: bool)

  /** An entry of the log and the clerk whose request it is. */
  datatype Item = Item(owner: nat, op: Op)

  datatype World = World(clerks: seq<Clerk>, log: seq<Item>)

  datatype Event =
    | BeginGet(c: nat, key: string)
    | BeginPutAppend(c: nat, opt: string, key: string, value: string)
    | Land(c: nat, k: nat)
    | EndGet(c: nat, index: nat)
    | EndPutAppend(c: nat, index: nat)

  function Pending(clerk: Clerk): Op
    requires clerk.issued != []
  {
    clerk.issued[|clerk.issued| - 1]
  }

  function NewOp(clerk: Clerk, opt: string, key: string, value: string): Op {
    Op(opt, key, value, Uuid(clerk.id, clerk.cnt))
  }

  predicate SameTriple(a: Op, b: Op) {
    a.opt == b.opt && a.key == b.key && a.value == b.value
  }

  predicate Possible(w: World, e: Event) {
    e.c < |w.clerks| && var clerk := w.clerks[e.c];
    match e
    case BeginGet(_, _) => !clerk.busy
    // PutAppend first does a Get when the clerk has no id yet
    case BeginPutAppend(_, opt, key, value) =>
      !clerk.busy && clerk.id != 0 && Mutation(NewOp(clerk, opt, key, value))
    case Land(_, k) => k < |clerk.issued|
    // the server does not look whose entry is at the index, nor whether it is a Get
    case EndGet(c, index) =>
      clerk.busy && clerk.issued != [] && !Mutation(Pending(clerk)) && 1 <= index <= |w.log|
    // the server acknowledges when the entry at the index has the same three fields
    case EndPutAppend(_, index) =>
      && clerk.busy && clerk.issued != [] && Mutation(Pending(clerk)) && 1 <= index <= |w.log|
      && SameTriple(w.log[index - 1].op, Pending(clerk))
  }

  function Happen(w: World, e: Event): World
    requires Possible(w, e)
  {
    var clerk := w.clerks[e.c];
    match e
    case BeginGet(c, key) =>
      w.(clerks := w.clerks[c := clerk.(issued := clerk.issued + [NewOp(clerk, "Get", key, "")], busy := true)])
    case BeginPutAppend(c, opt, key, value) =>
      w.(clerks := w.clerks[c := clerk.(issued := clerk.issued + [NewOp(clerk, opt, key, value)], busy := true)])
    case Land(c, k) => w.(log := w.log + [Item(c, clerk.issued[k])])
    case EndGet(c, index) =>
      var id := if clerk.id == 0 then index else clerk.id;
      w.(clerks := w.clerks[c := clerk.(id := id, cnt := clerk.cnt + 1, busy := false)])
    case EndPutAppend(c, index) =>
      w.(clerks := w.clerks[c := clerk.(cnt := clerk.cnt + 1, busy := false)])
  }

  function Fresh(n: nat): World {
    World(seq(n, i => Clerk(0, 0, [], false)), [])
  }

  datatype Story = Story(worlds: seq<World>, events: seq<Event>)

  ghost predicate IsStory(s: Story, n: nat) {
    && |s.worlds| == |s.events| + 1
    && s.worlds[0] == Fresh(n)
    && forall i :: 0 <= i < |s.events| ==>
         Possible(s.worlds[i], s.events[i]) && s.worlds[i + 1] == Happen(s.worlds[i], s.events[i])
  }

  predicate Issued(w: World, c: nat, k: nat) {
    c < |w.clerks| && k < |w.clerks[c].issued|
  }

  function IssuedOp(w: World, c: nat, k: nat): Op
    requires Issued(w, c, k)
  {
    w.clerks[c].issued[k]
  }

  /** The operation was acknowledged to its clerk. */
  predicate Finished(w: World, c: nat, k: nat) {
    Issued(w, c, k) && (w.clerks[c].busy ==> k < |w.clerks[c].issued| - 1)
  }

  /** No other operation, of whatever clerk, has the same name, key and value. */
  ghost predicate NoTwin(w: World, c: nat, k: nat)
    requires Issued(w, c, k)
  {
    forall d, m | Issued(w, d, m) && SameTriple(IssuedOp(w, c, k), IssuedOp(w, d, m)) :: c == d && k == m
  }

  /** No two writes that are ever issued have the same name, key and value. */
  ghost predicate Distinct(w: World) {
    forall c, k | Issued(w, c, k) && Mutation(IssuedOp(w, c, k)) :: NoTwin(w, c, k)
  }

  /** No other clerk with the same id has come as far as its operation k. */
  ghost predicate NoNamesake(w: World, c: nat, k: nat)
    requires Issued(w, c, k)
  {
    forall d: nat | Issued(w, d, k) && w.clerks[d].id == w.clerks[c].id :: d == c
  }

  /** The clerk's first Get was answered from its own entry. */
  predicate OwnEntry(w: World, c: nat)
    requires c < |w.clerks|
  {
    var clerk := w.clerks[c];
    1 <= clerk.id <= |w.log| && clerk.issued != [] && w.log[clerk.id - 1] == Item(c, clerk.issued[0])
  }

  // ---- invariants ----

  ghost predicate ClerkOk(w: World, c: nat)
    requires c < |w.clerks|
  {
    var clerk := w.clerks[c];
    && |clerk.issued| == clerk.cnt + (if clerk.busy then 1 else 0)
    && (clerk.id != 0 <==> clerk.cnt > 0)
    && clerk.id <= |w.log|
    && (clerk.issued != [] ==> !Mutation(clerk.issued[0]))
    && forall k :: 0 <= k < |clerk.issued| ==>
         clerk.issued[k].uuid == Uuid(if k == 0 then 0 else clerk.id, k)
  }

  ghost predicate ItemOk(w: World, i: nat)
    requires i < |w.log|
  {
    exists k :: Issued(w, w.log[i].owner, k) && IssuedOp(w, w.log[i].owner, k) == w.log[i].op
  }

  ghost predicate In(log: seq<Item>, upTo: nat, item: Item) {
    exists i :: 0 <= i < upTo <= |log| && log[i] == item
  }

  /** A write without a twin is acknowledged only when it is in the log. */
  ghost predicate FinishedLanded(w: World) {
    forall c, k | Finished(w, c, k) && Mutation(IssuedOp(w, c, k)) && NoTwin(w, c, k) ::
      In(w.log, |w.log|, Item(c, IssuedOp(w, c, k)))
  }

  /** A clerk's later operation lands only after its earlier writes, those without a twin. */
  ghost predicate LandedInOrder(w: World) {
    forall c, k, m, j | Issued(w, c, k) && Issued(w, c, m) && k < m && Mutation(IssuedOp(w, c, k)) && NoTwin(w, c, k)
      && 0 <= j < |w.log| && w.log[j] == Item(c, IssuedOp(w, c, m)) :: In(w.log, j, Item(c, IssuedOp(w, c, k)))
  }

  ghost predicate BaseOk(w: World) {
    && (forall c :: 0 <= c < |w.clerks| ==> ClerkOk(w, c))
    && (forall i :: 0 <= i < |w.log| ==> ItemOk(w, i))
  }

  ghost predicate WorldOk(w: World) {
    BaseOk(w) && FinishedLanded(w) && LandedInOrder(w)
  }

  // ---- every event keeps the invariants ----

  /** What is in the world stays there: operations are only added and the log only grows. */
  ghost predicate Grown(w: World, w': World) {
    && |w'.clerks| == |w.clerks| && w.log <= w'.log
    && forall c :: 0 <= c < |w.clerks| ==> w.clerks[c].issued <= w'.clerks[c].issued
  }

  lemma EventGrows(w: World, e: Event)
    requires Possible(w, e)
    ensures Grown(w, Happen(w, e))
  {
  }

  lemma InStays(log: seq<Item>, log': seq<Item>, upTo: nat, upTo': nat, item: Item)
    requires In(log, upTo, item) && log <= log' && upTo <= upTo' <= |log'|
    ensures In(log', upTo', item)
  {
    var i :| 0 <= i < upTo <= |log| && log[i] == item;
    assert log'[i] == item;
  }

  lemma ClerkStays(w: World, w': World, c: nat)
    requires Grown(w, w') && c < |w.clerks| && ClerkOk(w, c) && w'.clerks[c] == w.clerks[c]
    ensures ClerkOk(w', c)
  {
  }

  lemma ClerksOk(w: World, e: Event, c: nat)
    requires Possible(w, e) && BaseOk(w) && c < |w.clerks|
    ensures ClerkOk(Happen(w, e), c)
  {
    hide ItemOk, Uuid, KindOf;
    EventGrows(w, e);
    assert ClerkOk(w, c);
    if c != e.c || e.Land? {
      ClerkStays(w, Happen(w, e), c);
    } else if e.BeginGet? {
      GetIsNoMutation(NewOp(w.clerks[c], "Get", e.key, ""));
    }
  }

  lemma GetIsNoMutation(op: Op)
    requires op.opt == "Get"
    ensures !Mutation(op)
  {
  }

  lemma ItemsOk(w: World, e: Event, i: nat)
    requires Possible(w, e) && BaseOk(w) && i < |Happen(w, e).log|
    ensures ItemOk(Happen(w, e), i)
  {
    hide ClerkOk;
    EventGrows(w, e);
    var w' := Happen(w, e);
    if i < |w.log| {
      assert ItemOk(w, i);
      var k :| Issued(w, w.log[i].owner, k) && IssuedOp(w, w.log[i].owner, k) == w.log[i].op;
      assert Issued(w', w.log[i].owner, k);
    } else {
      assert e.Land?;
      assert Issued(w', e.c, e.k) && IssuedOp(w', e.c, e.k) == w'.log[i].op;
    }
  }

  /** Between two operations of a clerk all earlier ones are finished. */
  lemma EarlierFinished(w: World, c: nat, k: nat, m: nat)
    requires Issued(w, c, m) && k < m
    ensures Finished(w, c, k)
  {
  }

  /** A new operation has a new UUID, so nothing in the log looks like it. */
  lemma NewIsNew(w: World, c: nat, op: Op)
    requires BaseOk(w) && c < |w.clerks| && !w.clerks[c].busy
    requires op.uuid == Uuid(w.clerks[c].id, w.clerks[c].cnt)
    ensures forall j :: 0 <= j < |w.log| ==> w.log[j] != Item(c, op)
  {
    hide Uuid, KindOf;
    forall j | 0 <= j < |w.log|
      ensures w.log[j] != Item(c, op)
    {
      if w.log[j].owner == c {
        assert ItemOk(w, j) && ClerkOk(w, c);
        var k :| Issued(w, c, k) && IssuedOp(w, c, k) == w.log[j].op;
        if w.log[j].op.uuid == op.uuid {
          UuidInjective(if k == 0 then 0 else w.clerks[c].id, k, w.clerks[c].id, w.clerks[c].cnt);
        }
      }
    }
  }

  lemma LandedAt(w: World, e: Event, c: nat, k: nat, m: nat, j: nat)
    requires Possible(w, e) && WorldOk(w)
    requires
      var w' := Happen(w, e);
      && Issued(w', c, k) && Issued(w', c, m) && k < m && Mutation(IssuedOp(w', c, k)) && NoTwin(w', c, k)
      && j < |w'.log| && w'.log[j] == Item(c, IssuedOp(w', c, m))
    ensures In(Happen(w, e).log, j, Item(c, IssuedOp(Happen(w, e), c, k)))
  {
    hide ClerkOk, ItemOk, KindOf, Uuid, In, NoTwin;
    EventGrows(w, e);
    var w' := Happen(w, e);
    if Issued(w, c, m) {
      NoTwinBefore(w, w', c, k);
      var x := Item(c, IssuedOp(w, c, k));
      EarlierFinished(w, c, k, m);
      if j < |w.log| {
        assert w.log[j] == Item(c, IssuedOp(w, c, m));
        assert In(w.log, j, x);
        InStays(w.log, w'.log, j, j, x);
      } else {
        assert In(w.log, |w.log|, x);
        InStays(w.log, w'.log, |w.log|, j, x);
      }
    } else {
      NewIsNew(w, c, IssuedOp(w', c, m));
    }
  }

  lemma LandedStays(w: World, e: Event)
    requires Possible(w, e) && WorldOk(w)
    ensures LandedInOrder(Happen(w, e))
  {
    hide WorldOk, In, Happen, Possible, Mutation, NoTwin;
    var w' := Happen(w, e);
    forall c, k, m, j | Issued(w', c, k) && Issued(w', c, m) && k < m
      && Mutation(IssuedOp(w', c, k)) && NoTwin(w', c, k)
      && 0 <= j < |w'.log| && w'.log[j] == Item(c, IssuedOp(w', c, m))
      ensures In(w'.log, j, Item(c, IssuedOp(w', c, k)))
    {
      LandedAt(w, e, c, k, m, j);
    }
  }

  lemma NoTwinBefore(w: World, w': World, c: nat, k: nat)
    requires Grown(w, w') && Issued(w, c, k) && Issued(w', c, k) && NoTwin(w', c, k)
    ensures NoTwin(w, c, k)
  {
    forall d, m | Issued(w, d, m) && SameTriple(IssuedOp(w, c, k), IssuedOp(w, d, m))
      ensures c == d && k == m
    {
      assert Issued(w', d, m) && IssuedOp(w', d, m) == IssuedOp(w, d, m) && IssuedOp(w', c, k) == IssuedOp(w, c, k);
    }
  }

  /** The acknowledgement test finds the clerk's own entry: no other operation has the same three fields. */
  lemma AckFindsOwn(w: World, c: nat, index: nat)
    requires BaseOk(w) && c < |w.clerks| && w.clerks[c].issued != [] && NoTwin(w, c, |w.clerks[c].issued| - 1)
    requires 1 <= index <= |w.log| && SameTriple(w.log[index - 1].op, Pending(w.clerks[c]))
    ensures w.log[index - 1] == Item(c, Pending(w.clerks[c]))
  {
    hide ClerkOk, KindOf;
    assert ItemOk(w, index - 1);
    var d := w.log[index - 1].owner;
    var m :| Issued(w, d, m) && IssuedOp(w, d, m) == w.log[index - 1].op;
    var k := |w.clerks[c].issued| - 1;
    assert Issued(w, c, k) && IssuedOp(w, c, k) == Pending(w.clerks[c]);
  }

  lemma FinishedStays(w: World, e: Event)
    requires Possible(w, e) && WorldOk(w)
    ensures FinishedLanded(Happen(w, e))
  {
    hide LandedInOrder, ClerkOk, ItemOk, KindOf, Uuid, NoTwin;
    EventGrows(w, e);
    var w' := Happen(w, e);
    forall c, k | Finished(w', c, k) && Mutation(IssuedOp(w', c, k)) && NoTwin(w', c, k)
      ensures In(w'.log, |w'.log|, Item(c, IssuedOp(w', c, k)))
    {
      if Finished(w, c, k) {
        NoTwinBefore(w, w', c, k);
        InStays(w.log, w'.log, |w.log|, |w'.log|, Item(c, IssuedOp(w, c, k)));
      } else {
        NoTwinBefore(w, w', c, k);
        AckFindsOwn(w, c, e.index);
        assert w'.log[e.index - 1] == Item(c, IssuedOp(w', c, k));
      }
    }
  }

  lemma BaseStays(w: World, e: Event)
    requires Possible(w, e) && BaseOk(w)
    ensures BaseOk(Happen(w, e))
  {
    hide ClerkOk, ItemOk;
    var w' := Happen(w, e);
    forall c | 0 <= c < |w'.clerks|
      ensures ClerkOk(w', c)
    {
      ClerksOk(w, e, c);
    }
    forall i | 0 <= i < |w'.log|
      ensures ItemOk(w', i)
    {
      ItemsOk(w, e, i);
    }
  }

  lemma EventKeeps(w: World, e: Event)
    requires Possible(w, e) && WorldOk(w)
    ensures WorldOk(Happen(w, e))
  {
    hide BaseOk, FinishedLanded, LandedInOrder;
    BaseStays(w, e);
    FinishedStays(w, e);
    LandedStays(w, e);
  }

  // ---- whole stories ----

  lemma {:induction false} StoryGrows(s: Story, n: nat, i: nat, j: nat)
    requires IsStory(s, n) && i <= j < |s.worlds|
    ensures Grown(s.worlds[i], s.worlds[j])
    decreases j - i
  {
    hide Happen, Possible;
    if i < j {
      StoryGrows(s, n, i, j - 1);
      EventGrows(s.worlds[j - 1], s.events[j - 1]);
    }
  }

  /** In every story a write without a twin is acknowledged only after it has landed, and what a clerk issues
      later lands only after it. */
  lemma {:induction false} StoryOk(s: Story, n: nat, i: nat)
    requires IsStory(s, n) && i < |s.worlds|
    ensures WorldOk(s.worlds[i])
  {
    hide Happen, Possible;
    if i > 0 {
      StoryOk(s, n, i - 1);
      EventKeeps(s.worlds[i - 1], s.events[i - 1]);
    }
  }
}
