/**
 What goes wrong when a clerk takes its id from a Get that was not answered from its own entry, and when an
 entry is taken for the clerk's own because it has the same three fields.
 */
module ClerkWitness {
  import opened RaftTypes
  import opened KvReplay
  import opened Uuids
  import opened ClerkWorld
  import opened ClerkTheorems

  ghost function Last(s: Story): World
    requires s.worlds != []
  {
    s.worlds[|s.worlds| - 1]
  }

  /** One more event at the end of a story. */
  lemma Tell(s: Story, n: nat, e: Event, w: World) returns (s': Story)
    requires IsStory(s, n) && Possible(Last(s), e) && Happen(Last(s), e) == w
    ensures IsStory(s', n) && s'.worlds != [] && Last(s') == w
  {
    hide Happen, Possible;
    s' := Story(s.worlds + [w], s.events + [e]);
  }

  const FIRST := Op("Get", "nobody", "", Uuid(0, 0))

  function AppendedAs(cnt: nat, key: string, value: string): Op {
    Op("Append", key, value, Uuid(1, cnt))
  }

  function Appended(key: string, value: string): Op {
    AppendedAs(1, key, value)
  }

  /** Both clerks have asked, only the Get of clerk 0 is in the log, and both have been told index 1. */
  const NAMED := World([Clerk(1, 1, [FIRST], false), Clerk(1, 1, [FIRST], false)], [Item(0, FIRST)])

  /** The server that had started clerk 1's Get at index 1, and lost it there to the entry of clerk 0, answers
      as soon as it has applied index 1. */
  lemma BothNamed() returns (s: Story)
    ensures IsStory(s, 2) && Last(s) == NAMED
  {
    hide IsStory, Uuid;
    var w;
    s := Nothing(2);
    s, w := Asks(s, 2, Last(s), 0);
    s, w := Asks(s, 2, w, 1);
    var asking := w.clerks;
    assert [] + [Item(0, FIRST)] == [Item(0, FIRST)];
    s := Tell(s, 2, Land(0, 0), World(asking, [Item(0, FIRST)]));
    s, w := Learns(s, 2, Last(s), 0);
    s, w := Learns(s, 2, w, 1);
    assert w == NAMED;
  }

  lemma Nothing(n: nat) returns (s: Story)
    ensures IsStory(s, n) && Last(s) == Fresh(n)
  {
    s := Story([Fresh(n)], []);
  }

  /** A new clerk sends its first Get. */
  lemma Asks(s: Story, n: nat, w: World, c: nat) returns (s': Story, w': World)
    requires IsStory(s, n) && Last(s) == w && c < |w.clerks| && w.clerks[c] == Clerk(0, 0, [], false)
    ensures IsStory(s', n) && Last(s') == w'
    ensures w' == w.(clerks := w.clerks[c := Clerk(0, 0, [FIRST], true)])
  {
    hide IsStory, Uuid;
    assert [] + [FIRST] == [FIRST];
    w' := w.(clerks := w.clerks[c := Clerk(0, 0, [FIRST], true)]);
    s' := Tell(s, n, BeginGet(c, "nobody"), w');
  }

  /** It is told index 1. */
  lemma Learns(s: Story, n: nat, w: World, c: nat) returns (s': Story, w': World)
    requires IsStory(s, n) && Last(s) == w && c < |w.clerks| && w.clerks[c] == Clerk(0, 0, [FIRST], true) && w.log != []
    ensures IsStory(s', n) && Last(s') == w'
    ensures w' == w.(clerks := w.clerks[c := Clerk(1, 1, [FIRST], false)])
  {
    hide IsStory, Uuid;
    w' := w.(clerks := w.clerks[c := Clerk(1, 1, [FIRST], false)]);
    s' := Tell(s, n, EndGet(c, 1), w');
  }

  /** After an Append by each of them. */
  function Written(key: string, a: string, b: string): World {
    World([Clerk(1, 2, [FIRST, Appended(key, a)], false), Clerk(1, 2, [FIRST, Appended(key, b)], false)],
          [Item(0, FIRST), Item(0, Appended(key, a)), Item(1, Appended(key, b))])
  }

  /** A clerk with id 1 appends, the entry lands, and the clerk is told. */
  lemma OneWrites(s: Story, n: nat, w: World, c: nat, key: string, value: string) returns (s': Story, w': World)
    requires IsStory(s, n) && Last(s) == w && c < |w.clerks| && w.clerks[c] == Clerk(1, 1, [FIRST], false)
    ensures IsStory(s', n) && Last(s') == w'
    ensures w' == World(w.clerks[c := Clerk(1, 2, [FIRST, Appended(key, value)], false)],
                        w.log + [Item(c, Appended(key, value))])
  {
    hide IsStory, Uuid;
    var op := Appended(key, value);
    var busy := w.(clerks := w.clerks[c := Clerk(1, 1, [FIRST, op], true)]);
    assert [FIRST] + [op] == [FIRST, op];
    s' := Tell(s, n, BeginPutAppend(c, "Append", key, value), busy);
    var landed := busy.(log := w.log + [Item(c, op)]);
    s' := Tell(s', n, Land(c, 1), landed);
    w' := landed.(clerks := w.clerks[c := Clerk(1, 2, [FIRST, op], false)]);
    assert landed.clerks[c := Clerk(1, 2, [FIRST, op], false)] == w'.clerks;
    s' := Tell(s', n, EndPutAppend(c, |landed.log|), w');
  }

  /** For any key and any two different values there is a story in which all writes are distinct, clerk 1's
      Append is acknowledged, and it has no effect: a Get sees only the other clerk's value. */
  lemma SharedIdLosesAppend(key: string, a: string, b: string) returns (s: Story)
    requires a != b
    ensures IsStory(s, 2) && s.worlds != []
    ensures
      var w := s.worlds[|s.worlds| - 1];
      && Distinct(w) && Finished(w, 1, 1) && IssuedOp(w, 1, 1) == Appended(key, b)
      && OwnEntry(w, 0) && !OwnEntry(w, 1) && Namesakes(w, 0, 1, 1)
      && IssuedOp(w, 1, 1) in Ops(w.log) && IssuedOp(w, 1, 1) !in Firsts(Ops(w.log))
      && Lookup(Replay(Ops(w.log)).db, key) == a
  {
    hide Uuid, Firsts, Replay;
    s := BothNamed();
    var w0, w1;
    s, w0 := OneWrites(s, 2, NAMED, 0, key, a);
    s, w1 := OneWrites(s, 2, w0, 1, key, b);
    assert w1 == Written(key, a, b);
    Outcome(key, a, b);
    assert Ops(w1.log)[2] == Appended(key, b);
  }

  lemma Outcome(key: string, a: string, b: string)
    requires a != b
    ensures
      var ops := Ops(Written(key, a, b).log);
      Firsts(ops) == [Appended(key, a)] && Lookup(Replay(ops).db, key) == a
  {
    hide Uuid;
    var x, y := Appended(key, a), Appended(key, b);
    var ops := Ops(Written(key, a, b).log);
    UuidApart();
    assert ops == [FIRST, x] + [y] && [FIRST, x] == [FIRST] + [x] && [FIRST] == [] + [FIRST];
    FirstsSnoc([FIRST, x], y);
    FirstsSnoc([FIRST], x);
    FirstsSnoc([], FIRST);
    assert [FIRST, x][1].uuid == y.uuid;
    ReplayIsFold(ops);
    assert [x] == [] + [x];
    FoldSnoc([], x);
    EffectOn(Fold([]), x, key);
  }

  lemma UuidApart()
    ensures Uuid(0, 0) != Uuid(1, 1)
  {
    if Uuid(0, 0) == Uuid(1, 1) {
      UuidInjective(0, 0, 1, 1);
    }
  }

  // ---- one clerk, one value twice ----

  /** The clerk has its own id, and its Append has landed at index 2 and is acknowledged. */
  function OnceWritten(key: string, value: string): World {
    var x := Appended(key, value);
    World([Clerk(1, 2, [FIRST, x], false)], [Item(0, FIRST), Item(0, x)])
  }

  lemma WritesOnce(key: string, value: string) returns (s: Story)
    ensures IsStory(s, 1) && Last(s) == OnceWritten(key, value)
  {
    hide IsStory, Uuid;
    var w;
    s := Nothing(1);
    s, w := Asks(s, 1, Last(s), 0);
    assert [] + [Item(0, FIRST)] == [Item(0, FIRST)];
    s := Tell(s, 1, Land(0, 0), World(w.clerks, [Item(0, FIRST)]));
    s, w := Learns(s, 1, Last(s), 0);
    s, w := OneWrites(s, 1, w, 0, key, value);
    assert w == OnceWritten(key, value);
  }

  /** For any key and value there is a story of one clerk with an id of its own that appends the value twice and
      is told twice that it succeeded, although the second Append never landed: a server that had started it at
      index 2 finds the first one there. A Get sees the value once. */
  lemma RepeatedAppendLost(key: string, value: string) returns (s: Story)
    ensures IsStory(s, 1) && s.worlds != []
    ensures
      var w := s.worlds[|s.worlds| - 1];
      && Finished(w, 0, 2) && OwnEntry(w, 0) && NoNamesake(w, 0, 2) && NoDouble(w, 0, 2) && !NoTwin(w, 0, 2)
      && IssuedOp(w, 0, 2) == AppendedAs(2, key, value) && IssuedOp(w, 0, 2) !in Ops(w.log)
      && Lookup(Replay(Ops(w.log)).db, key) == value
  {
    hide Uuid, Firsts, Replay;
    s := WritesOnce(key, value);
    var x, y := AppendedAs(1, key, value), AppendedAs(2, key, value);
    var log := [Item(0, FIRST), Item(0, x)];
    assert [FIRST, x] + [y] == [FIRST, x, y];
    s := Tell(s, 1, BeginPutAppend(0, "Append", key, value), World([Clerk(1, 2, [FIRST, x, y], true)], log));
    s := Tell(s, 1, EndPutAppend(0, 2), World([Clerk(1, 3, [FIRST, x, y], false)], log));
    assert IssuedOp(Last(s), 0, 1) == x && SameTriple(y, x);
    SeenOnce(key, value);
  }

  lemma SeenOnce(key: string, value: string)
    ensures
      var x, y := AppendedAs(1, key, value), AppendedAs(2, key, value);
      var ops := Ops([Item(0, FIRST), Item(0, x)]);
      y !in ops && Lookup(Replay(ops).db, key) == value
  {
    hide Uuid;
    var x := AppendedAs(1, key, value);
    var ops := Ops([Item(0, FIRST), Item(0, x)]);
    UuidApart();
    if Uuid(1, 1) == Uuid(1, 2) {
      UuidInjective(1, 1, 1, 2);
    }
    assert ops == [FIRST] + [x] && [FIRST] == [] + [FIRST] && [x] == [] + [x];
    FirstsSnoc([FIRST], x);
    FirstsSnoc([], FIRST);
    ReplayIsFold(ops);
    FoldSnoc([], x);
    EffectOn(Fold([]), x, key);
  }
}
