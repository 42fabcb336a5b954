/** The file functions of diskv as an object that works on the disk step by step. */
module ShardStore {
  import opened RaftTypes
  import opened Base32
  import opened ShardFiles

  class DisKV {
    var fs: Fs
    ghost var trail: seq<FileOp>   // every file operation so far

    constructor (fs: Fs)
      ensures this.fs == fs && trail == []
    {
      this.fs, trail := fs, [];
    }

    /** One file operation. */
    method Perform(op: FileOp)
      modifies this
      ensures fs == Do(old(fs), op) && trail == old(trail) + [op]
    {
      fs := Do(fs, op);
      trail := trail + [op];
    }

    method ShardDir(shard: int)
      modifies this
      ensures fs == Do(old(fs), Mkdir(shard)) && trail == old(trail) + [Mkdir(shard)]
      ensures shard in fs
    {
      Perform(Mkdir(shard));
    }

    /** WriteFile truncates, then writes. The disk takes `room` bytes; with less than that the call fails
        and leaves what it has written. */
    method WriteFile(shard: int, name: string, content: Content, room: nat) returns (ok: bool)
      modifies this
      ensures ok <==> room >= |content|
      ensures var ops := [Create(shard, name)] + Appends(shard, name, content);
              var n := if ok then |content| else room;
              fs == Apply(old(fs), ops[..n + 1]) && trail == old(trail) + ops[..n + 1]
    {
      ghost var ops := [Create(shard, name)] + Appends(shard, name, content);
      Perform(Create(shard, name));
      assert ops[..1] == [] + [Create(shard, name)];
      assert Apply(old(fs), []) == old(fs);
      ApplySnoc(old(fs), [], Create(shard, name));
      hide Apply, Do;
      var i := 0;
      while i < |content| && i < room
        invariant i <= |content| && i <= room
        invariant fs == Apply(old(fs), ops[..i + 1]) && trail == old(trail) + ops[..i + 1]
      {
        Perform(AppendByte(shard, name, content[i]));
        assert ops[..i + 2] == ops[..i + 1] + [AppendByte(shard, name, content[i])];
        ApplySnoc(old(fs), ops[..i + 1], AppendByte(shard, name, content[i]));
        i := i + 1;
      }
      ok := i == |content|;
    }

    /** filePut: the operations of PutOps, all of them unless the write or the rename fails. */
    method FilePut(shard: int, key: Key, content: Content, room: nat, renames: bool) returns (ok: bool, ghost put: Put)
      modifies this
      ensures ok <==> room >= |content| && renames
      ensures put == Put(shard, key, content, put.done) && (put.Complete() <==> ok)
      ensures fs == Apply(old(fs), put.Ops()) && trail == old(trail) + put.Ops()
    {
      hide Apply, Encode, Appends;
      ghost var before := fs;
      ghost var all := PutOps(shard, key, content);
      ghost var ops := [Create(shard, TempName(key))] + Appends(shard, TempName(key), content);
      ShardDir(shard);
      ShardDir(shard);
      assert all[..2] == [Mkdir(shard), Mkdir(shard)];
      EarlyOps(before, shard, key, content, 2);
      assert fs == Apply(before, all[..2]);
      hide Do;
      var written := WriteFile(shard, TempName(key), content, room);
      ghost var n := if written then |content| else room;
      assert all[..n + 3] == all[..2] + ops[..n + 1];
      ApplyJoins(before, all[..2], ops[..n + 1]);
      assert Put(shard, key, content, n + 3).Ops() == all[..n + 3];
      assert fs == Apply(before, all[..n + 3]);
      if !written {
        return false, Put(shard, key, content, n + 3);
      }
      if !renames {
        return false, Put(shard, key, content, n + 3);
      }
      Perform(Rename(shard, TempName(key), KeyName(key)));
      assert all == all[..n + 3] + [Rename(shard, TempName(key), KeyName(key))];
      ApplySnoc(before, all[..n + 3], Rename(shard, TempName(key), KeyName(key)));
      ok, put := true, Put(shard, key, content, |all|);
    }

    /** None stands for the error of a file that is not there. The directory is made first all the same. */
    method FileGet(shard: int, key: Key) returns (content: Option<Content>)
      modifies this
      ensures fs == Do(old(fs), Mkdir(shard)) && trail == old(trail) + [Mkdir(shard)]
      ensures content == Holds(old(fs), shard, key)
    {
      ShardDir(shard);
      content := if KeyName(key) in fs[shard] then Some(fs[shard][KeyName(key)]) else None;
    }

    /** fileReadShard; None stands for the fatal errors and for the panic on a short name. */
    method FileReadShard(shard: int) returns (m: Option<map<Key, Content>>)
      modifies this
      ensures fs == Do(old(fs), Mkdir(shard))
      ensures m.Some? <==> Readable(fs[shard])
      ensures m.Some? ==> forall key :: Look(m.value, key) == Holds(old(fs), shard, key)
    {
      ShardDir(shard);
      var dir := fs[shard];
      var found: map<Key, Content> := map[];
      var todo := dir.Keys;
      while todo != {}
        invariant fs == Do(old(fs), Mkdir(shard)) && shard in fs && fs[shard] == dir && todo <= dir.Keys
        invariant forall name :: name in dir && name !in todo ==> NameReadable(dir, name)
        invariant forall key :: key in found ==> KeyName(key) in dir && found[key] == dir[KeyName(key)]
        invariant forall key :: KeyName(key) in dir && KeyName(key) !in todo ==> key in found
        decreases |todo|
      {
        var name :| name in todo;
        todo := todo - {name};
        if |name| < 4 {
          return None;
        }
        if name[..4] == "key-" {
          var decoded := Decode(name[4..]);
          if decoded.Corrupt? {
            return None;
          }
          var content := FileGet(shard, decoded.bytes);
          if content.None? {
            return None;
          }
          found := found[decoded.bytes := content.value];
        }
        forall key | KeyName(key) == name ensures NameReadable(dir, name) && key in found {
          KeyFileReadable(dir, key);
        }
      }
      return Some(found);
    }

    /** RemoveAll: the files of the directory one by one, then the directory. */
    method RemoveAll(shard: int) returns (ghost names: seq<string>)
      requires shard in fs
      modifies this
      ensures fs == old(fs) - {shard} && trail == old(trail) + Removes(shard, names) + [Rmdir(shard)]
      ensures fs == Apply(old(fs), Removes(shard, names) + [Rmdir(shard)])
      ensures forall name :: name in names <==> name in old(fs[shard])
    {
      hide Apply, Do;
      names := [];
      NothingRemoved(fs, shard);
      var todo := fs[shard].Keys;
      while todo != {}
        invariant shard in fs && fs - {shard} == old(fs) - {shard} && todo <= old(fs[shard]).Keys
        invariant trail == old(trail) + Removes(shard, names) && fs == Apply(old(fs), Removes(shard, names))
        invariant forall name :: name in names <==> name in old(fs[shard]) && name !in todo
        decreases |todo|
      {
        var name :| name in todo;
        todo := todo - {name};
        RemoveIsLocal(fs, shard, name);
        Perform(Remove(shard, name));
        RemovesSnoc(old(fs), shard, names, name);
        names := names + [name];
      }
      RmdirDrops(fs, shard);
      Perform(Rmdir(shard));
      ApplySnoc(old(fs), Removes(shard, names), Rmdir(shard));
    }

    /** fileReplaceShard. The errors of its puts are not looked at: `failing` is the set of the keys whose
        put fails. Afterwards the shard reads as the new map without those keys. */
    method FileReplaceShard(shard: int, m: map<Key, Content>, failing: set<Key>)
      returns (ghost names: seq<string>, ghost puts: seq<Put>)
      requires StoreOk(fs)
      modifies this
      ensures StoreOk(fs)
      ensures forall key :: Holds(fs, shard, key) == if key in failing then None else Look(m, key)
      ensures forall s, key :: s != shard ==> Holds(fs, s, key) == Holds(old(fs), s, key)
      ensures trail == old(trail) + ReplaceOps(shard, names, puts)
      ensures fs == Apply(old(fs), ReplaceOps(shard, names, puts))
      ensures Installs(puts, shard, m, failing)
      ensures forall name :: name in names <==> shard in old(fs) && name in old(fs)[shard]
    {
      hide Apply, Holds, Look, StoreOk, Put.Ops, Installs;
      ghost var start := fs;
      ShardDir(shard);
      ghost var made := fs;
      names := RemoveAll(shard);
      hide Do;
      Emptied(start, shard, m, failing);
      assert trail == old(trail) + ClearOps(shard, names);
      ClearJoins(start, shard, names);
      ghost var cleared := fs;
      puts := PutAll(shard, m, failing, start);
      ApplyJoins(start, ClearOps(shard, names), AllOps(puts));
    }

    /** The loop of fileReplaceShard over the new map; `start` is the disk before the replacement. */
    method PutAll(shard: int, m: map<Key, Content>, failing: set<Key>, ghost start: Fs) returns (ghost puts: seq<Put>)
      requires StoreOk(fs) && Filled(fs, shard, m, failing + m.Keys) && SameElsewhere(fs, start, shard)
      modifies this
      ensures StoreOk(fs) && Filled(fs, shard, m, failing) && SameElsewhere(fs, start, shard)
      ensures trail == old(trail) + AllOps(puts) && fs == Apply(old(fs), AllOps(puts))
      ensures Installs(puts, shard, m, failing)
    {
      hide Progress, Installing, Filled, StoreOk, SameElsewhere, Apply, AllOps, Put.Ops, Put.Complete, Installs;
      puts := [];
      Begin(fs, start, shard, m, failing);
      var todo := m.Keys;
      while todo != {}
        invariant todo <= m.Keys && Progress(fs, old(fs), start, puts, shard, m, failing, todo)
        invariant trail == old(trail) + AllOps(puts)
        decreases |todo|
      {
        ghost var before := fs;
        var key :| key in todo;
        var ok, put := FilePut(shard, key, m[key], |m[key]|, key !in failing);
        Advance(before, old(fs), start, puts, put, m, failing, todo);
        AllOpsSnoc(puts, put);
        puts := puts + [put];
        todo := todo - {key};
      }
      AllInstalled(fs, old(fs), start, puts, shard, m, failing);
    }
  }

  /** Where the loop over the new map is: the disk is what the puts so far make of `first`, and the shard
      reads as m except for the keys that fail or are still to do. */
  ghost predicate Progress(fs: Fs, first: Fs, start: Fs, puts: seq<Put>, shard: int,
                           m: map<Key, Content>, failing: set<Key>, todo: set<Key>) {
    && StoreOk(fs) && Filled(fs, shard, m, failing + todo) && SameElsewhere(fs, start, shard)
    && fs == Apply(first, AllOps(puts)) && Installing(puts, shard, m, failing, todo)
  }

  lemma Begin(fs: Fs, start: Fs, shard: int, m: map<Key, Content>, failing: set<Key>)
    requires StoreOk(fs) && Filled(fs, shard, m, failing + m.Keys) && SameElsewhere(fs, start, shard)
    ensures AllOps([]) == [] && Progress(fs, fs, start, [], shard, m, failing, m.Keys)
  {
  }

  lemma Advance(before: Fs, first: Fs, start: Fs, puts: seq<Put>, put: Put,
                m: map<Key, Content>, failing: set<Key>, todo: set<Key>)
    requires Progress(before, first, start, puts, put.shard, m, failing, todo) && put.key in todo
    requires IsPutOf(put, put.shard, m, failing)
    ensures Progress(Apply(before, put.Ops()), first, start, puts + [put], put.shard, m, failing, todo - {put.key})
  {
    hide Apply, StoreOk, Filled, SameElsewhere, Put.Ops, Put.Complete, AllOps, Installing;
    Refilled(before, put, start, m, failing, todo);
    AllOpsSnoc(puts, put);
    ApplyJoins(first, AllOps(puts), put.Ops());
    InstallsOneMore(puts, put, m, failing, todo);
  }

  /** The puts so far are those of the keys that are no longer to do, one for each. */
  ghost predicate Installing(puts: seq<Put>, shard: int, m: map<Key, Content>, failing: set<Key>, todo: set<Key>) {
    && (forall i :: 0 <= i < |puts| ==> IsPutOf(puts[i], shard, m, failing) && puts[i].key !in todo)
    && (forall i, j :: 0 <= i < j < |puts| ==> puts[i].key != puts[j].key)
    && (forall key :: key in m && key !in todo ==> HasPut(puts, key))
  }

  lemma InstallsOneMore(puts: seq<Put>, put: Put, m: map<Key, Content>, failing: set<Key>, todo: set<Key>)
    requires Installing(puts, put.shard, m, failing, todo) && put.key in todo && IsPutOf(put, put.shard, m, failing)
    ensures Installing(puts + [put], put.shard, m, failing, todo - {put.key})
  {
    hide IsPutOf;
    var more := puts + [put];
    forall key | key in m && key !in todo - {put.key} ensures HasPut(more, key) {
      if key == put.key {
        assert more[|puts|].key == key;
      } else {
        assert HasPut(puts, key);
        var i :| 0 <= i < |puts| && puts[i].key == key;
        assert more[i].key == key;
      }
    }
  }

  lemma AllInstalled(fs: Fs, first: Fs, start: Fs, puts: seq<Put>, shard: int, m: map<Key, Content>, failing: set<Key>)
    requires Progress(fs, first, start, puts, shard, m, failing, {})
    ensures StoreOk(fs) && Filled(fs, shard, m, failing) && SameElsewhere(fs, start, shard)
    ensures fs == Apply(first, AllOps(puts)) && Installs(puts, shard, m, failing)
  {
    assert failing + {} == failing;
  }

  lemma NothingRemoved(fs: Fs, shard: int)
    ensures Apply(fs, Removes(shard, [])) == fs
  {
    assert Removes(shard, []) == [];
  }

  lemma RemoveIsLocal(fs: Fs, shard: int, name: string)
    requires shard in fs
    ensures shard in Do(fs, Remove(shard, name)) && Do(fs, Remove(shard, name)) - {shard} == fs - {shard}
  {
  }

  lemma RmdirDrops(fs: Fs, shard: int)
    ensures Do(fs, Rmdir(shard)) == fs - {shard}
  {
  }

  lemma RemovesSnoc(fs: Fs, shard: int, names: seq<string>, name: string)
    ensures Removes(shard, names + [name]) == Removes(shard, names) + [Remove(shard, name)]
    ensures Apply(fs, Removes(shard, names + [name])) == Do(Apply(fs, Removes(shard, names)), Remove(shard, name))
  {
    ApplySnoc(fs, Removes(shard, names), Remove(shard, name));
  }

  lemma ClearJoins(fs: Fs, shard: int, names: seq<string>)
    ensures Apply(fs, ClearOps(shard, names)) == Apply(Do(fs, Mkdir(shard)), Removes(shard, names) + [Rmdir(shard)])
  {
    assert ClearOps(shard, names) == ([] + [Mkdir(shard)]) + (Removes(shard, names) + [Rmdir(shard)]);
    assert Apply(fs, []) == fs;
    ApplySnoc(fs, [], Mkdir(shard));
    ApplyJoins(fs, [] + [Mkdir(shard)], Removes(shard, names) + [Rmdir(shard)]);
  }

  /** The shard reads as m, except for the keys in `without`. */
  ghost predicate Filled(fs: Fs, shard: int, m: map<Key, Content>, without: set<Key>) {
    forall key :: Holds(fs, shard, key) == if key in without then None else Look(m, key)
  }

  ghost predicate SameElsewhere(fs: Fs, start: Fs, shard: int) {
    forall s, key :: s != shard ==> Holds(fs, s, key) == Holds(start, s, key)
  }

  lemma Emptied(start: Fs, shard: int, m: map<Key, Content>, failing: set<Key>)
    requires StoreOk(start)
    ensures var fs := Do(start, Mkdir(shard)) - {shard};
            StoreOk(fs) && Filled(fs, shard, m, failing + m.Keys) && SameElsewhere(fs, start, shard)
  {
  }

  lemma Refilled(before: Fs, put: Put, start: Fs, m: map<Key, Content>, failing: set<Key>, todo: set<Key>)
    requires StoreOk(before) && Filled(before, put.shard, m, failing + todo) && SameElsewhere(before, start, put.shard)
    requires put.key in m && put.key in todo && put.content == m[put.key] && (put.Complete() <==> put.key !in failing)
    ensures var fs := Apply(before, put.Ops());
            && StoreOk(fs) && Filled(fs, put.shard, m, failing + (todo - {put.key}))
            && SameElsewhere(fs, start, put.shard)
  {
    hide StoreOk, Holds, Apply, Put.Ops;
    PutKeepsStore(before, put);
    forall s, k ensures Holds(Apply(before, put.Ops()), s, k)
                        == if put.Complete() && put.shard == s && put.key == k then Some(put.content)
                           else Holds(before, s, k)
    {
      PutIsAtomic(before, put, s, k);
    }
  }

  /** What a crash leaves: read back, the shard is exactly the latest complete puts over what was there. */
  method ReadAfterCrash(start: Fs, puts: seq<Put>, shard: int) returns (m: Option<map<Key, Content>>)
    requires StoreOk(start)
    ensures m.Some? && forall key :: Look(m.value, key) == Latest(Holds(start, shard, key), puts, shard, key)
  {
    var kv := new DisKV(Apply(start, AllOps(puts)));
    forall key ensures Holds(kv.fs, shard, key) == Latest(Holds(start, shard, key), puts, shard, key) {
      CrashAtomic(start, puts, shard, key);
    }
    CrashAtomic(start, puts, shard, []);
    ghost var left := kv.fs;
    m := kv.FileReadShard(shard);
    assert StoreOk(Do(left, Mkdir(shard)));
    StoreIsReadable(kv.fs, shard);
  }

  /** fileReplaceShard without interruption or error, then fileReadShard: the map comes back. */
  method ReplaceThenRead(start: Fs, shard: int, m: map<Key, Content>) returns (back: Option<map<Key, Content>>)
    requires StoreOk(start)
    ensures back == Some(m)
  {
    var kv := new DisKV(start);
    var _, _ := kv.FileReplaceShard(shard, m, {});
    ghost var left := kv.fs;
    back := kv.FileReadShard(shard);
    assert StoreOk(Do(left, Mkdir(shard)));
    StoreIsReadable(kv.fs, shard);
    forall key ensures Look(back.value, key) == Look(m, key) {
    }
    assert forall key :: key in back.value <==> key in m by {
      forall key ensures key in back.value <==> key in m { assert Look(back.value, key) == Look(m, key); }
    }
    assert forall key :: key in m ==> back.value[key] == m[key] by {
      forall key | key in m ensures back.value[key] == m[key] { assert Look(back.value, key) == Look(m, key); }
    }
    assert back.value == m;
  }
}
