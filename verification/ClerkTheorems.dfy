/** Exactly once and in program order, although every request is sent again and again. */
module ClerkTheorems {
  import opened RaftTypes
  import opened KvReplay
  import opened Uuids
  import opened ClerkWorld

  /** The operations of one clerk have different UUIDs, whatever answered its Gets. */
  lemma OneClerkUnique(s: Story, n: nat, i: nat, c: nat, k: nat, m: nat)
    requires IsStory(s, n) && i < |s.worlds| && Issued(s.worlds[i], c, k) && Issued(s.worlds[i], c, m)
    requires IssuedOp(s.worlds[i], c, k).uuid == IssuedOp(s.worlds[i], c, m).uuid
    ensures k == m
  {
    hide IsStory;
    StoryOk(s, n, i);
    SharedMeans(s.worlds[i], c, k, c, m);
  }

  /** Two operations share a UUID exactly if they have the same number and their clerks the same id, or are
      both first ones. */
  lemma SharedMeans(w: World, c: nat, k: nat, d: nat, m: nat)
    requires BaseOk(w) && Issued(w, c, k) && Issued(w, d, m)
    ensures IssuedOp(w, c, k).uuid == IssuedOp(w, d, m).uuid <==>
              k == m && (k == 0 || w.clerks[c].id == w.clerks[d].id)
  {
    hide Uuid, KindOf, ItemOk;
    assert ClerkOk(w, c) && ClerkOk(w, d);
    if IssuedOp(w, c, k).uuid == IssuedOp(w, d, m).uuid {
      UuidInjective(if k == 0 then 0 else w.clerks[c].id, k, if m == 0 then 0 else w.clerks[d].id, m);
    }
  }

  /** Two clerks whose first Gets were answered from their own entries share no UUID after those Gets,
      whatever happened to a third clerk. */
  lemma OwnEntriesDiffer(s: Story, n: nat, i: nat, c: nat, k: nat, d: nat, m: nat)
    requires IsStory(s, n) && i < |s.worlds| && Issued(s.worlds[i], c, k) && Issued(s.worlds[i], d, m)
    requires c != d && OwnEntry(s.worlds[i], c) && OwnEntry(s.worlds[i], d) && (k > 0 || m > 0)
    ensures IssuedOp(s.worlds[i], c, k).uuid != IssuedOp(s.worlds[i], d, m).uuid
  {
    hide IsStory;
    StoryOk(s, n, i);
    SharedMeans(s.worlds[i], c, k, d, m);
  }

  /** OwnEntry is decided when the first Get is answered: by whose entry stands at the index. */
  lemma AnsweredFromOwn(w: World, c: nat, index: nat)
    requires BaseOk(w) && Possible(w, EndGet(c, index)) && w.clerks[c].id == 0
    ensures OwnEntry(Happen(w, EndGet(c, index)), c) <==> w.log[index - 1] == Item(c, Pending(w.clerks[c]))
  {
    hide KindOf, Uuid, ItemOk;
    assert ClerkOk(w, c);
  }

  /** And it does not change after that. */
  lemma OwnEntryStays(w: World, e: Event, c: nat)
    requires BaseOk(w) && Possible(w, e) && c < |w.clerks| && w.clerks[c].id != 0
    ensures OwnEntry(Happen(w, e), c) <==> OwnEntry(w, c)
  {
    hide KindOf, Uuid, ItemOk;
    assert ClerkOk(w, c);
  }

  /** No write shares its UUID with any other operation. */
  ghost predicate WritesUnique(w: World) {
    forall c, k, d, m | Issued(w, c, k) && Issued(w, d, m) && Mutation(IssuedOp(w, c, k))
      && IssuedOp(w, c, k).uuid == IssuedOp(w, d, m).uuid :: c == d && k == m
  }

  /** Two clerks have one id, both have come to their operation k, and one of the two is a write. */
  ghost predicate Namesakes(w: World, c: nat, d: nat, k: nat) {
    && Issued(w, c, k) && Issued(w, d, k) && c != d && 1 <= k
    && w.clerks[c].id == w.clerks[d].id && Mutation(IssuedOp(w, c, k))
  }

  /** UUIDs of writes are unique if and only if no two clerks have the same id and both issued an operation
      of the same number of which one is a write. */
  lemma UuidsUnique(s: Story, n: nat, i: nat)
    requires IsStory(s, n) && i < |s.worlds|
    ensures WritesUnique(s.worlds[i]) <==> !exists c, d, k :: Namesakes(s.worlds[i], c, d, k)
  {
    hide IsStory, KindOf;
    StoryOk(s, n, i);
    var w := s.worlds[i];
    if WritesUnique(w) {
      forall c, d, k ensures !Namesakes(w, c, d, k) {
        if Namesakes(w, c, d, k) {
          SharedMeans(w, c, k, d, k);
        }
      }
    } else {
      var c, k, d, m :| Issued(w, c, k) && Issued(w, d, m) && Mutation(IssuedOp(w, c, k))
                        && IssuedOp(w, c, k).uuid == IssuedOp(w, d, m).uuid && !(c == d && k == m);
      SharedMeans(w, c, k, d, m);
      assert ClerkOk(w, c);
      assert Namesakes(w, c, d, k);
    }
  }

  function Ops(log: seq<Item>): seq<Op> {
    seq(|log|, i requires 0 <= i < |log| => log[i].op)
  }

  /** Every entry with the UUID of x is x itself. */
  ghost predicate Sole(ops: seq<Op>, x: Op) {
    forall i :: 0 <= i < |ops| && ops[i].uuid == x.uuid ==> ops[i] == x
  }

  ghost predicate Before(ops: seq<Op>, x: Op, y: Op) {
    exists a, b :: 0 <= a < b < |ops| && ops[a] == x && ops[b] == y
  }

  lemma BeforeLonger(a: seq<Op>, b: seq<Op>, x: Op, y: Op)
    requires Before(a, x, y) && a <= b
    ensures Before(b, x, y)
  {
    var i, j :| 0 <= i < j < |a| && a[i] == x && a[j] == y;
    assert b[i] == x && b[j] == y;
  }

  /** y comes for the first time, and x is there already. */
  lemma FirstAfter(rest: seq<Op>, x: Op, y: Op)
    requires Mutation(x) && Mutation(y) && Sole(rest, x) && Sole(rest, y) && x in rest && y !in rest
    ensures Before(Firsts(rest + [y]), x, y)
  {
    hide Mutation;
    FirstsSnoc(rest, y);
    SoleFirst(rest, x);
    EffectCount(rest, x);
    assert !HasUuid(rest, y.uuid);
    hide Firsts;
    var firsts := Firsts(rest);
    var a :| 0 <= a < |firsts| && firsts[a] == x;
    assert (firsts + [y])[a] == x && (firsts + [y])[|firsts|] == y;
  }

  ghost predicate Occurs(ops: seq<Op>, upTo: nat, x: Op) {
    exists i :: 0 <= i < upTo <= |ops| && ops[i] == x
  }

  /** No y without an earlier x. */
  ghost predicate Follows(ops: seq<Op>, x: Op, y: Op) {
    forall j :: 0 <= j < |ops| && ops[j] == y ==> Occurs(ops, j, x)
  }

  lemma FollowsPrefix(rest: seq<Op>, last: Op, x: Op, y: Op)
    requires Follows(rest + [last], x, y)
    ensures Follows(rest, x, y)
    ensures last == y ==> x in rest
  {
    var ops := rest + [last];
    forall j | 0 <= j < |rest| && rest[j] == y
      ensures Occurs(rest, j, x)
    {
      assert ops[j] == y;
      var i :| 0 <= i < j <= |ops| && ops[i] == x;
      assert rest[i] == x;
    }
    if last == y {
      assert ops[|rest|] == y;
      var i :| 0 <= i < |rest| <= |ops| && ops[i] == x;
      assert rest[i] == x;
    }
  }

  lemma SolePrefix(rest: seq<Op>, last: Op, x: Op)
    requires Sole(rest + [last], x)
    ensures Sole(rest, x)
  {
    assert forall i :: 0 <= i < |rest| ==> (rest + [last])[i] == rest[i];
  }

  /** If y comes only after x, then y takes effect after x. */
  lemma {:induction false} OrderInFirsts(ops: seq<Op>, x: Op, y: Op)
    requires Mutation(x) && Mutation(y) && Sole(ops, x) && Sole(ops, y) && y in ops && Follows(ops, x, y)
    ensures Before(Firsts(ops), x, y)
  {
    hide Before, Firsts, Sole, Follows, KindOf;
    var rest, last := ops[..|ops| - 1], ops[|ops| - 1];
    assert ops == rest + [last];
    SolePrefix(rest, last, x);
    SolePrefix(rest, last, y);
    FollowsPrefix(rest, last, x, y);
    hide Mutation, Before, Firsts, Sole, Follows;
    if y in rest {
      OrderInFirsts(rest, x, y);
      FirstsSnoc(rest, last);
      BeforeLonger(Firsts(rest), Firsts(ops), x, y);
    } else {
      FirstAfter(rest, x, y);
    }
  }

  /** An entry that no other has the UUID of is the first one with it. */
  lemma SoleFirst(ops: seq<Op>, x: Op)
    requires Sole(ops, x) && x in ops
    ensures FirstWith(ops, x.uuid) == Some(x)
  {
    var i :| 0 <= i < |ops| && ops[i] == x;
    assert HasUuid(ops, x.uuid);
    var j := FirstWithAt(ops, x.uuid);
  }

  /** Who may have put an entry with the UUID of a write into the log. */
  lemma Sharer(w: World, c: nat, k: nat, i: nat)
    requires BaseOk(w) && Issued(w, c, k) && Mutation(IssuedOp(w, c, k))
    requires i < |w.log| && w.log[i].op.uuid == IssuedOp(w, c, k).uuid
    ensures
      var d := w.log[i].owner;
      Issued(w, d, k) && w.clerks[d].id == w.clerks[c].id && w.log[i] == Item(d, IssuedOp(w, d, k))
  {
    hide KindOf;
    assert ItemOk(w, i) && ClerkOk(w, c);
    var m :| Issued(w, w.log[i].owner, m) && IssuedOp(w, w.log[i].owner, m) == w.log[i].op;
    SharedMeans(w, c, k, w.log[i].owner, m);
  }

  lemma SoleInLog(w: World, c: nat, k: nat)
    requires BaseOk(w) && Issued(w, c, k) && Mutation(IssuedOp(w, c, k)) && NoNamesake(w, c, k)
    ensures Sole(Ops(w.log), IssuedOp(w, c, k))
    ensures forall i :: 0 <= i < |w.log| && w.log[i].op == IssuedOp(w, c, k) ==> w.log[i].owner == c
  {
    hide KindOf, ClerkOk, BaseOk;
    var x := IssuedOp(w, c, k);
    forall i | 0 <= i < |w.log| && w.log[i].op.uuid == x.uuid
      ensures w.log[i] == Item(c, x)
    {
      Sharer(w, c, k, i);
    }
  }

  lemma LandedSole(w: World, c: nat, k: nat)
    requires WorldOk(w) && Finished(w, c, k) && Mutation(IssuedOp(w, c, k)) && NoTwin(w, c, k)
    ensures IssuedOp(w, c, k) in Ops(w.log)
  {
    hide KindOf, BaseOk, LandedInOrder;
    var x := Item(c, IssuedOp(w, c, k));
    assert In(w.log, |w.log|, x);
    var j :| 0 <= j < |w.log| && w.log[j] == x;
    assert Ops(w.log)[j] == x.op;
  }

  /** An acknowledged write takes effect exactly once, however often it was sent and landed, provided that no
      other operation has its three fields and no other clerk of the same id has come as far. */
  lemma AcknowledgedExactlyOnce(s: Story, n: nat, i: nat, c: nat, k: nat)
    requires IsStory(s, n) && i < |s.worlds|
    requires Finished(s.worlds[i], c, k) && Mutation(IssuedOp(s.worlds[i], c, k))
    requires NoTwin(s.worlds[i], c, k) && NoNamesake(s.worlds[i], c, k)
    ensures multiset(Firsts(Ops(s.worlds[i].log)))[IssuedOp(s.worlds[i], c, k)] == 1
  {
    hide IsStory, KindOf, Firsts, NoTwin, NoNamesake;
    var w := s.worlds[i];
    StoryOk(s, n, i);
    SoleInLog(w, c, k);
    LandedSole(w, c, k);
    var x := IssuedOp(w, c, k);
    SoleFirst(Ops(w.log), x);
    EffectCount(Ops(w.log), x);
  }

  /** A clerk of the same id landed its operation k before the first landing of this one. */
  ghost predicate Overtaken(w: World, c: nat, k: nat)
    requires Issued(w, c, k)
  {
    exists d: nat, j: nat :: OvertakenBy(w, c, k, d, j)
  }

  ghost predicate OvertakenBy(w: World, c: nat, k: nat, d: nat, j: nat)
    requires Issued(w, c, k)
  {
    && d != c && Issued(w, d, k) && w.clerks[d].id == w.clerks[c].id
    && j < |w.log| && w.log[j] == Item(d, IssuedOp(w, d, k)) && !In(w.log, j, Item(c, IssuedOp(w, c, k)))
  }

  /** No other clerk of the same id has this very operation, fields and number alike. */
  ghost predicate NoDouble(w: World, c: nat, k: nat)
    requires Issued(w, c, k)
  {
    forall d: nat | Issued(w, d, k) && d != c && w.clerks[d].id == w.clerks[c].id ::
      IssuedOp(w, d, k) != IssuedOp(w, c, k)
  }

  /** A write takes effect exactly once if it landed, acknowledged or not, and was not overtaken, and otherwise
      never. Nothing is asked of ids, and other writes may have its three fields. */
  lemma LandedExactly(s: Story, n: nat, i: nat, c: nat, k: nat)
    requires IsStory(s, n) && i < |s.worlds|
    requires Issued(s.worlds[i], c, k) && Mutation(IssuedOp(s.worlds[i], c, k)) && NoDouble(s.worlds[i], c, k)
    ensures
      var w := s.worlds[i];
      var x := IssuedOp(w, c, k);
      multiset(Firsts(Ops(w.log)))[x] == if In(w.log, |w.log|, Item(c, x)) && !Overtaken(w, c, k) then 1 else 0
  {
    hide IsStory, KindOf, Firsts;
    var w := s.worlds[i];
    StoryOk(s, n, i);
    hide BaseOk, FinishedLanded, LandedInOrder;
    var x, ops := IssuedOp(w, c, k), Ops(w.log);
    EffectCount(ops, x);
    if HasUuid(ops, x.uuid) {
      var j := FirstWithAt(ops, x.uuid);
      Sharer(w, c, k, j);
      FirstDecides(w, c, k, j);
    } else {
      NoneWith(ops, x.uuid);
      forall l | 0 <= l < |w.log| ensures w.log[l] != Item(c, x) { assert ops[l].uuid != x.uuid; }
    }
  }

  /** Entry j is the first one with the UUID of the write. */
  lemma FirstDecides(w: World, c: nat, k: nat, j: nat)
    requires BaseOk(w) && Issued(w, c, k) && NoDouble(w, c, k) && j < |w.log|
    requires Ops(w.log)[j].uuid == IssuedOp(w, c, k).uuid
    requires forall i :: 0 <= i < j ==> Ops(w.log)[i].uuid != IssuedOp(w, c, k).uuid
    requires
      var d := w.log[j].owner;
      Issued(w, d, k) && w.clerks[d].id == w.clerks[c].id && w.log[j] == Item(d, IssuedOp(w, d, k))
    ensures
      var x := IssuedOp(w, c, k);
      w.log[j].op == x <==> In(w.log, |w.log|, Item(c, x)) && !Overtaken(w, c, k)
  {
    hide BaseOk;
    var x, d := IssuedOp(w, c, k), w.log[j].owner;
    if d == c {
      forall e: nat, h: nat | e != c && Issued(w, e, k) && w.clerks[e].id == w.clerks[c].id
                              && h < |w.log| && w.log[h] == Item(e, IssuedOp(w, e, k))
        ensures In(w.log, h, Item(c, x))
      {
        OthersAreLater(w, c, k, j, e, h);
      }
    } else {
      forall h | 0 <= h < j ensures w.log[h] != Item(c, x) { assert Ops(w.log)[h].uuid != x.uuid; }
      assert OvertakenBy(w, c, k, d, j);
    }
  }

  /** Some entry has the three fields of the operation. */
  ghost predicate TripleIn(log: seq<Item>, op: Op) {
    exists i :: 0 <= i < |log| && SameTriple(log[i].op, op)
  }

  /** All that an acknowledgement says: the write has landed, or another operation with its three fields has. */
  lemma {:induction false} AcknowledgedFound(s: Story, n: nat, i: nat, c: nat, k: nat)
    requires IsStory(s, n) && i < |s.worlds|
    requires Finished(s.worlds[i], c, k) && Mutation(IssuedOp(s.worlds[i], c, k))
    ensures TripleIn(s.worlds[i].log, IssuedOp(s.worlds[i], c, k))
    ensures
      var w := s.worlds[i];
      In(w.log, |w.log|, Item(c, IssuedOp(w, c, k))) || !NoTwin(w, c, k)
  {
    hide KindOf, Uuid, WorldOk, In, NoTwin;
    StoryOk(s, n, i);
    if NoTwin(s.worlds[i], c, k) {
      FinishedIn(s.worlds[i], c, k);
    }
    assert i > 0;
    var w, e := s.worlds[i - 1], s.events[i - 1];
    EventGrows(w, e);
    var op := IssuedOp(s.worlds[i], c, k);
    if Finished(w, c, k) {
      AcknowledgedFound(s, n, i - 1, c, k);
      var l :| 0 <= l < |w.log| && SameTriple(w.log[l].op, op);
      assert SameTriple(s.worlds[i].log[l].op, op);
    } else {
      assert SameTriple(s.worlds[i].log[e.index - 1].op, op);
    }
  }

  lemma FinishedIn(w: World, c: nat, k: nat)
    requires WorldOk(w) && Finished(w, c, k) && Mutation(IssuedOp(w, c, k)) && NoTwin(w, c, k)
    ensures In(w.log, |w.log|, Item(c, IssuedOp(w, c, k)))
  {
  }

  lemma OthersAreLater(w: World, c: nat, k: nat, j: nat, e: nat, h: nat)
    requires BaseOk(w) && Issued(w, c, k) && j < |w.log| && w.log[j] == Item(c, IssuedOp(w, c, k))
    requires forall i :: 0 <= i < j ==> Ops(w.log)[i].uuid != IssuedOp(w, c, k).uuid
    requires e != c && Issued(w, e, k) && w.clerks[e].id == w.clerks[c].id
    requires h < |w.log| && w.log[h] == Item(e, IssuedOp(w, e, k))
    ensures In(w.log, h, Item(c, IssuedOp(w, c, k)))
  {
    SharedMeans(w, c, k, e, k);
    assert Ops(w.log)[h].uuid == IssuedOp(w, c, k).uuid;
  }

  /** One clerk's acknowledged writes take effect in program order, under the same two conditions. */
  lemma AcknowledgedInOrder(s: Story, n: nat, i: nat, c: nat, k: nat, m: nat)
    requires IsStory(s, n) && i < |s.worlds|
    requires k < m && Finished(s.worlds[i], c, k) && Finished(s.worlds[i], c, m)
    requires Mutation(IssuedOp(s.worlds[i], c, k)) && Mutation(IssuedOp(s.worlds[i], c, m))
    requires NoTwin(s.worlds[i], c, k) && NoNamesake(s.worlds[i], c, k)
    requires NoTwin(s.worlds[i], c, m) && NoNamesake(s.worlds[i], c, m)
    ensures Before(Firsts(Ops(s.worlds[i].log)), IssuedOp(s.worlds[i], c, k), IssuedOp(s.worlds[i], c, m))
  {
    hide IsStory, KindOf, Firsts, NoTwin, NoNamesake, BaseOk;
    var w := s.worlds[i];
    StoryOk(s, n, i);
    SoleInLog(w, c, k);
    SoleInLog(w, c, m);
    LandedSole(w, c, m);
    var ops, x, y := Ops(w.log), IssuedOp(w, c, k), IssuedOp(w, c, m);
    forall j | 0 <= j < |ops| && ops[j] == y
      ensures Occurs(ops, j, x)
    {
      assert w.log[j] == Item(c, y);
      assert In(w.log, j, Item(c, x));
      var h :| 0 <= h < j && w.log[h] == Item(c, x);
      assert ops[h] == x;
    }
    OrderInFirsts(ops, x, y);
  }

  lemma {:induction false} FirstsAreWrites(ops: seq<Op>, x: Op)
    requires x in Firsts(ops)
    ensures x in ops && Mutation(x)
  {
    if ops != [] {
      var rest, last := ops[..|ops| - 1], ops[|ops| - 1];
      if x in Firsts(rest) {
        FirstsAreWrites(rest, x);
      }
    }
  }

  /** If the clerks only ever Append to a key, a Get of it returns the values of the Appends that take effect,
      one after the other: with the lemmas above, each acknowledged one once, those of a clerk in order. */
  lemma AppendedValue(s: Story, n: nat, i: nat, key: string)
    requires IsStory(s, n) && i < |s.worlds|
    requires forall c, k :: Issued(s.worlds[i], c, k) && IssuedOp(s.worlds[i], c, k).key == key ==>
                              IssuedOp(s.worlds[i], c, k).opt in {"Get", "Append"}
    ensures var ops := Ops(s.worlds[i].log);
            Lookup(Replay(ops).db, key) == Concat(OnlyKey(Firsts(ops), key))
  {
    var w := s.worlds[i];
    var ops := Ops(w.log);
    StoryOk(s, n, i);
    var firsts := Firsts(ops);
    forall j | 0 <= j < |firsts| && firsts[j].key == key
      ensures firsts[j].opt == "Append"
    {
      FirstsAreWrites(ops, firsts[j]);
      var l :| 0 <= l < |ops| && ops[l] == firsts[j];
      assert ItemOk(w, l);
    }
    ReplayIsFold(ops);
    AppendsConcatenate(firsts, key);
  }
}
