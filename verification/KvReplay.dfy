/** What a Get computes from the log: the replay loop of the key/value server, and what it means. */
module KvReplay {
  import opened RaftTypes

  type Db = map<string, string>

  /** The database and the UUID counts that the loop fills. */
  datatype Table = Table(db: Db, seen: map<string, nat>)

  const EMPTY := Table(map[], map[])

  /** Reading a Go map: a missing key reads as the zero value. */
  function Lookup(db: Db, key: string): string {
    if key in db then db[key] else ""
  }

  function Count(seen: map<string, nat>, uuid: string): nat {
    if uuid in seen then seen[uuid] else 0
  }

  datatype Kind = Get | Put | Append | Other

  /** The switch on the operation's name. */
  function KindOf(op: Op): Kind {
    if op.opt == "Get" then Get
    else if op.opt == "Put" then Put
    else if op.opt == "Append" then Append
    else Other
  }

  function Effect(db: Db, op: Op): Db {
    match KindOf(op)
    case Put => db[op.key := op.value]
    case Append => db[op.key := Lookup(db, op.key) + op.value]
    case _ => db
  }

  predicate Mutation(op: Op) {
    KindOf(op) != Get
  }

  function Step(t: Table, op: Op): Table {
    if Mutation(op) && Count(t.seen, op.uuid) > 0 then t
    else Table(Effect(t.db, op), t.seen[op.uuid := Count(t.seen, op.uuid) + 1])
  }

  /** The loop over a log, started from t. */
  function ReplayFrom(t: Table, log: seq<Op>): Table {
    if log == [] then t
    else Step(ReplayFrom(t, log[..|log| - 1]), log[|log| - 1])
  }

  function Replay(log: seq<Op>): Table {
    ReplayFrom(EMPTY, log)
  }

  // ---- the meaning ----

  predicate HasUuid(log: seq<Op>, uuid: string) {
    exists i :: 0 <= i < |log| && log[i].uuid == uuid
  }

  /** The entries that take effect: those other than Gets whose UUID no earlier entry has. */
  function Firsts(log: seq<Op>): seq<Op> {
    if log == [] then []
    else
      var rest, last := log[..|log| - 1], log[|log| - 1];
      if Mutation(last) && !HasUuid(rest, last.uuid) then Firsts(rest) + [last] else Firsts(rest)
  }

  /** Running operations one after the other, with no thought of UUIDs. */
  function Fold(ops: seq<Op>): Db {
    if ops == [] then map[]
    else Effect(Fold(ops[..|ops| - 1]), ops[|ops| - 1])
  }

  lemma {:induction false} SeenMeans(log: seq<Op>, uuid: string)
    ensures Count(Replay(log).seen, uuid) > 0 <==> HasUuid(log, uuid)
  {
    if log != [] {
      var rest, last := log[..|log| - 1], log[|log| - 1];
      SeenMeans(rest, uuid);
      if last.uuid == uuid {
        assert log[|log| - 1].uuid == uuid;
      } else {
        assert HasUuid(rest, uuid) <==> HasUuid(log, uuid) by {
          if HasUuid(rest, uuid) {
            var i :| 0 <= i < |rest| && rest[i].uuid == uuid;
            assert log[i].uuid == uuid;
          }
        }
      }
    }
  }

  /** For every log the database is the fold of exactly the entries that take effect. */
  lemma {:induction false} ReplayIsFold(log: seq<Op>)
    ensures Replay(log).db == Fold(Firsts(log))
  {
    if log != [] {
      var rest, last := log[..|log| - 1], log[|log| - 1];
      ReplayIsFold(rest);
      SeenMeans(rest, last.uuid);
      if Mutation(last) && !HasUuid(rest, last.uuid) {
        assert Firsts(log)[..|Firsts(log)| - 1] == Firsts(rest);
      } else {
        assert Firsts(log) == Firsts(rest);
      }
    }
  }

  /** What one more entry does, by the name of its operation. A Put whose UUID is new sets the value, an Append
      whose UUID is new adds to what is there, or to nothing; every other entry, and so every Get and every
      repetition, leaves the database as it is. No other key is touched. */
  lemma EntryEffect(log: seq<Op>, e: Op, key: string)
    ensures
      var db, db' := Replay(log).db, Replay(log + [e]).db;
      var first := forall i :: 0 <= i < |log| ==> log[i].uuid != e.uuid;
      && (first && e.opt == "Put" ==> e.key in db' && db'[e.key] == e.value)
      && (first && e.opt == "Append" ==>
            e.key in db' && db'[e.key] == (if e.key in db then db[e.key] else "") + e.value)
      && (!(first && (e.opt == "Put" || e.opt == "Append")) ==> db' == db)
      && (key != e.key ==> (key in db' <==> key in db) && (key in db ==> db'[key] == db[key]))
  {
    ReplaySnoc(log, e);
    SeenMeans(log, e.uuid);
  }

  // ---- one effect for one UUID ----

  /** The first entry with the UUID. */
  function FirstWith(log: seq<Op>, uuid: string): Option<Op> {
    if log == [] then None
    else
      var before, last := FirstWith(log[..|log| - 1], uuid), log[|log| - 1];
      if before.None? && last.uuid == uuid then Some(last) else before
  }

  function OnlyUuid(ops: seq<Op>, uuid: string): seq<Op> {
    if ops == [] then []
    else
      var rest, last := ops[..|ops| - 1], ops[|ops| - 1];
      if last.uuid == uuid then OnlyUuid(rest, uuid) + [last] else OnlyUuid(rest, uuid)
  }

  lemma {:induction false} FirstWithAt(log: seq<Op>, uuid: string) returns (j: nat)
    requires HasUuid(log, uuid)
    ensures j < |log| && FirstWith(log, uuid) == Some(log[j]) && log[j].uuid == uuid
    ensures forall i :: 0 <= i < j ==> log[i].uuid != uuid
  {
    var rest := log[..|log| - 1];
    HasUuidSnoc(log, uuid);
    if HasUuid(rest, uuid) {
      j := FirstWithAt(rest, uuid);
    } else {
      NoneWith(rest, uuid);
      j := |log| - 1;
      forall i | 0 <= i < j ensures log[i].uuid != uuid { assert rest[i] == log[i]; }
    }
  }

  lemma {:induction false} NoneWith(log: seq<Op>, uuid: string)
    ensures FirstWith(log, uuid).None? <==> !HasUuid(log, uuid)
  {
    if log != [] {
      NoneWith(log[..|log| - 1], uuid);
      HasUuidSnoc(log, uuid);
    }
  }

  /** What comes after an entry with the UUID makes no difference to which is the first. */
  lemma {:induction false} FirstWithPrefix(a: seq<Op>, b: seq<Op>, uuid: string)
    requires a <= b && HasUuid(a, uuid)
    ensures FirstWith(b, uuid) == FirstWith(a, uuid)
    decreases |b|
  {
    NoneWith(a, uuid);
    if |a| < |b| {
      FirstWithPrefix(a, b[..|b| - 1], uuid);
    } else {
      assert a == b;
    }
  }

  /** In every log, of all the entries with one UUID only the first can take effect, and it does exactly if
      it is not a Get: a Get that comes first silences the writes with its UUID. */
  lemma {:induction false} OnePerUuid(log: seq<Op>, uuid: string)
    ensures
      var first := FirstWith(log, uuid);
      OnlyUuid(Firsts(log), uuid) == if first.Some? && Mutation(first.value) then [first.value] else []
  {
    hide KindOf;
    if log != [] {
      var rest, last := log[..|log| - 1], log[|log| - 1];
      OnePerUuid(rest, uuid);
      NoneWith(rest, uuid);
      if Mutation(last) && !HasUuid(rest, last.uuid) {
        assert Firsts(log)[..|Firsts(log)| - 1] == Firsts(rest);
      }
    }
  }

  lemma {:induction false} CountByUuid(ops: seq<Op>, x: Op)
    ensures multiset(ops)[x] == multiset(OnlyUuid(ops, x.uuid))[x]
  {
    if ops != [] {
      var rest, last := ops[..|ops| - 1], ops[|ops| - 1];
      CountByUuid(rest, x);
      assert ops == rest + [last];
    }
  }

  /** So in every log a write takes effect once if it is the first entry with its UUID, and else never. */
  lemma EffectCount(log: seq<Op>, x: Op)
    requires Mutation(x)
    ensures multiset(Firsts(log))[x] == if FirstWith(log, x.uuid) == Some(x) then 1 else 0
  {
    CountByUuid(Firsts(log), x);
    OnePerUuid(log, x.uuid);
  }

  // ---- duplicates ----

  /** `long` is `short` with any number of entries inserted, each after an entry with the same UUID. */
  ghost predicate Pads(short: seq<Op>, long: seq<Op>)
    decreases |long|
  {
    if long == [] then short == []
    else
      var rest, last := long[..|long| - 1], long[|long| - 1];
      || (short != [] && short[|short| - 1] == last && Pads(short[..|short| - 1], rest))
      || (HasUuid(rest, last.uuid) && Pads(short, rest))
  }

  lemma HasUuidSnoc(log: seq<Op>, uuid: string)
    requires log != []
    ensures HasUuid(log, uuid) <==> HasUuid(log[..|log| - 1], uuid) || log[|log| - 1].uuid == uuid
  {
    var rest := log[..|log| - 1];
    if HasUuid(rest, uuid) {
      var i :| 0 <= i < |rest| && rest[i].uuid == uuid;
      assert log[i].uuid == uuid;
    }
    if log[|log| - 1].uuid == uuid {
      assert HasUuid(log, uuid);
    }
  }

  lemma {:induction false} PadsSameUuids(short: seq<Op>, long: seq<Op>, uuid: string)
    requires Pads(short, long)
    ensures HasUuid(short, uuid) <==> HasUuid(long, uuid)
    decreases |long|
  {
    if long != [] {
      var rest, last := long[..|long| - 1], long[|long| - 1];
      HasUuidSnoc(long, uuid);
      if HasUuid(rest, last.uuid) && Pads(short, rest) {
        PadsSameUuids(short, rest, uuid);
      } else {
        PadsSameUuids(short[..|short| - 1], rest, uuid);
        HasUuidSnoc(short, uuid);
      }
    }
  }

  /** Later duplicates, inserted anywhere and in any number, change nothing. */
  lemma {:induction false} DuplicatesChangeNothing(short: seq<Op>, long: seq<Op>)
    requires Pads(short, long)
    ensures Firsts(long) == Firsts(short)
    ensures Replay(long).db == Replay(short).db
    decreases |long|
  {
    if long != [] {
      var rest, last := long[..|long| - 1], long[|long| - 1];
      if HasUuid(rest, last.uuid) && Pads(short, rest) {
        DuplicatesChangeNothing(short, rest);
      } else {
        DuplicatesChangeNothing(short[..|short| - 1], rest);
        PadsSameUuids(short[..|short| - 1], rest, last.uuid);
      }
    }
    ReplayIsFold(long);
    ReplayIsFold(short);
  }

  // ---- resuming and projecting ----

  /** Replaying a + b is replaying b from where replaying a stopped. */
  lemma {:induction false} ReplayResumes(t: Table, a: seq<Op>, b: seq<Op>)
    ensures ReplayFrom(t, a + b) == ReplayFrom(ReplayFrom(t, a), b)
    decreases |b|
  {
    if b == [] {
      assert a + b == a;
    } else {
      var rest := b[..|b| - 1];
      assert (a + b)[..|a + b| - 1] == a + rest;
      ReplayResumes(t, a, rest);
    }
  }

  function OnlyKey(log: seq<Op>, key: string): seq<Op> {
    if log == [] then []
    else
      var rest, last := log[..|log| - 1], log[|log| - 1];
      if last.key == key then OnlyKey(rest, key) + [last] else OnlyKey(rest, key)
  }

  /** If a write to the key has a UUID that was used before, it was used before with this key. */
  ghost predicate KeyStable(log: seq<Op>, key: string) {
    forall j :: 0 <= j < |log| && log[j].key == key && Mutation(log[j]) && HasUuid(log[..j], log[j].uuid)
      ==> HasUuid(OnlyKey(log[..j], key), log[j].uuid)
  }

  lemma KeyStableSnoc(log: seq<Op>, key: string)
    requires log != []
    ensures
      var rest, last := log[..|log| - 1], log[|log| - 1];
      KeyStable(log, key) <==>
      KeyStable(rest, key) &&
      (last.key == key && Mutation(last) && HasUuid(rest, last.uuid) ==> HasUuid(OnlyKey(rest, key), last.uuid))
  {
    var rest := log[..|log| - 1];
    forall j | 0 <= j < |rest|
      ensures log[..j] == rest[..j]
    {
    }
  }

  lemma {:induction false} OnlyKeyUuids(log: seq<Op>, key: string, uuid: string)
    requires HasUuid(OnlyKey(log, key), uuid)
    ensures HasUuid(log, uuid)
  {
    if log != [] {
      HasUuidSnoc(log, uuid);
      if log[|log| - 1].key == key {
        HasUuidSnoc(OnlyKey(log, key), uuid);
        assert OnlyKey(log, key)[..|OnlyKey(log, key)| - 1] == OnlyKey(log[..|log| - 1], key);
      }
      if HasUuid(OnlyKey(log[..|log| - 1], key), uuid) {
        OnlyKeyUuids(log[..|log| - 1], key, uuid);
      }
    }
  }

  lemma FirstsSnoc(log: seq<Op>, e: Op)
    ensures Firsts(log + [e]) == if Mutation(e) && !HasUuid(log, e.uuid) then Firsts(log) + [e] else Firsts(log)
  {
    assert (log + [e])[..|log|] == log;
  }

  lemma OnlyKeySnoc(log: seq<Op>, e: Op, key: string)
    ensures OnlyKey(log + [e], key) == if e.key == key then OnlyKey(log, key) + [e] else OnlyKey(log, key)
  {
    assert (log + [e])[..|log|] == log;
  }

  ghost predicate Reused(log: seq<Op>, e: Op, key: string) {
    e.key == key && Mutation(e) && HasUuid(log, e.uuid) && !HasUuid(OnlyKey(log, key), e.uuid)
  }

  /** One entry more: the two sides grow alike unless the entry reuses a UUID of another key. */
  lemma ProjectsSnoc(log: seq<Op>, e: Op, key: string)
    ensures
      var a, b := Firsts(OnlyKey(log, key)), OnlyKey(Firsts(log), key);
      var a', b' := Firsts(OnlyKey(log + [e], key)), OnlyKey(Firsts(log + [e]), key);
      || (a' == a && b' == b && !Reused(log, e, key))
      || (a' == a + [e] && b' == b + [e] && !Reused(log, e, key))
      || (a' == a + [e] && b' == b && Reused(log, e, key))
  {
    FirstsSnoc(log, e);
    FirstsSnoc(OnlyKey(log, key), e);
    OnlyKeySnoc(log, e, key);
    OnlyKeySnoc(Firsts(log), e, key);
    if HasUuid(OnlyKey(log, key), e.uuid) {
      OnlyKeyUuids(log, key, e.uuid);
    }
    hide KindOf, HasUuid, Firsts, OnlyKey;
  }

  lemma SnocInjective(a: seq<Op>, b: seq<Op>, e: Op)
    ensures a + [e] == b + [e] <==> a == b
  {
    if a + [e] == b + [e] {
      assert a == (a + [e])[..|a|] == (b + [e])[..|b|] == b;
    }
  }

  /** Replaying only the entries of one key lets the same writes of that key take effect exactly when
      the log is key-stable; otherwise it lets through more. */
  lemma {:induction false} ProjectionExact(log: seq<Op>, key: string)
    ensures KeyStable(log, key) <==> Firsts(OnlyKey(log, key)) == OnlyKey(Firsts(log), key)
    ensures !KeyStable(log, key) ==> |Firsts(OnlyKey(log, key))| > |OnlyKey(Firsts(log), key)|
  {
    if log != [] {
      hide KeyStable, Firsts, OnlyKey;
      var rest, last := log[..|log| - 1], log[|log| - 1];
      ProjectionExact(rest, key);
      KeyStableSnoc(log, key);
      ProjectsSnoc(rest, last, key);
      SnocInjective(Firsts(OnlyKey(rest, key)), OnlyKey(Firsts(rest), key), last);
      assert rest + [last] == log;
      hide HasUuid, Mutation;
    }
  }

  lemma EffectOn(db: Db, op: Op, key: string)
    ensures
      Lookup(Effect(db, op), key) ==
      if op.key == key && op.opt == "Put" then op.value
      else if op.key == key && op.opt == "Append" then Lookup(db, key) + op.value
      else Lookup(db, key)
  {
  }

  lemma FoldSnoc(ops: seq<Op>, e: Op)
    ensures Fold(ops + [e]) == Effect(Fold(ops), e)
  {
    assert (ops + [e])[..|ops|] == ops;
  }

  lemma {:induction false} FoldProjects(ops: seq<Op>, key: string)
    ensures Lookup(Fold(ops), key) == Lookup(Fold(OnlyKey(ops, key)), key)
  {
    hide KindOf, Effect, Lookup;
    if ops != [] {
      var rest, last := ops[..|ops| - 1], ops[|ops| - 1];
      FoldProjects(rest, key);
      EffectOn(Fold(rest), last, key);
      EffectOn(Fold(OnlyKey(rest, key)), last, key);
      if last.key == key {
        FoldSnoc(OnlyKey(rest, key), last);
      }
    }
  }

  /** Ignoring other keys gives the same value for a key, provided the log is key-stable. */
  lemma IgnoreOtherKeys(log: seq<Op>, key: string)
    requires KeyStable(log, key)
    ensures Lookup(Replay(OnlyKey(log, key)).db, key) == Lookup(Replay(log).db, key)
  {
    ProjectionExact(log, key);
    ReplayIsFold(log);
    ReplayIsFold(OnlyKey(log, key));
    FoldProjects(Firsts(log), key);
  }

  lemma ReplaySnoc(log: seq<Op>, e: Op)
    ensures Replay(log + [e]) == Step(Replay(log), e)
  {
    assert (log + [e])[..|log|] == log;
  }

  /** Without that it can go wrong: a write whose UUID was used with another key is skipped by the
      full replay and let through by the replay of its own key. */
  lemma IgnoringOtherKeysCanFail(a: Op, b: Op)
    requires a.opt == "Put" && b.opt == "Put" && a.key != b.key && a.uuid == b.uuid && b.value != ""
    ensures Lookup(Replay([a, b]).db, b.key) == ""
    ensures Lookup(Replay(OnlyKey([a, b], b.key)).db, b.key) == b.value
  {
    ReplaySnoc([], a);
    ReplaySnoc([a], b);
    ReplaySnoc([], b);
    OnlyKeySnoc([], a, b.key);
    OnlyKeySnoc([a], b, b.key);
    assert [] + [a] == [a] && [a] + [b] == [a, b] && [] + [b] == [b];
    hide Replay, OnlyKey;
  }

  // ---- appends ----

  function Concat(ops: seq<Op>): string {
    if ops == [] then "" else Concat(ops[..|ops| - 1]) + ops[|ops| - 1].value
  }

  /** If only Appends to a key take effect, its value is their values, one after the other, in log order. */
  lemma {:induction false} AppendsConcatenate(ops: seq<Op>, key: string)
    requires forall i :: 0 <= i < |ops| && ops[i].key == key ==> ops[i].opt == "Append"
    ensures Lookup(Fold(ops), key) == Concat(OnlyKey(ops, key))
  {
    hide KindOf, Effect;
    if ops != [] {
      var rest, last := ops[..|ops| - 1], ops[|ops| - 1];
      AppendsConcatenate(rest, key);
      EffectOn(Fold(rest), last, key);
      assert last.key == key ==> ops[|ops| - 1].opt == "Append";
      if last.key == key {
        assert OnlyKey(ops, key)[..|OnlyKey(ops, key)| - 1] == OnlyKey(rest, key);
      }
    }
  }
}
