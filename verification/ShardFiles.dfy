/**
 The shard directories of diskv as file operations. A crash, or an error that ends an operation early,
 leaves what the operations before it did: any prefix, also inside the writing of a temporary file.
 */
module ShardFiles {
  import opened RaftTypes
  import opened Base32

  type Key = seq<Byte>

  type Content = seq<Byte>

  type Dir = map<string, Content>

  /** A directory for each shard that has one. */
  type Fs = map<int, Dir>

  function KeyName(key: Key): string {
    "key-" + Encode(key)
  }

  function TempName(key: Key): string {
    "temp-" + Encode(key)
  }

  datatype FileOp =
    | Mkdir(shard: int)                                   // if needed
    | Create(shard: int, name: string)                    // or truncate
    | AppendByte(shard: int, name: string, b: Byte)
    | Rename(shard: int, from: string, to: string)
    | Remove(shard: int, name: string)
    | Rmdir(shard: int)

  function Do(fs: Fs, op: FileOp): Fs {
    match op
    case Mkdir(s) => if s in fs then fs else fs[s := map[]]
    case Create(s, name) => if s in fs then fs[s := fs[s][name := []]] else fs
    case AppendByte(s, name, b) =>
      if s in fs && name in fs[s] then fs[s := fs[s][name := fs[s][name] + [b]]] else fs
    case Rename(s, from, to) =>
      if s in fs && from in fs[s] then fs[s := (fs[s] - {from})[to := fs[s][from]]] else fs
    case Remove(s, name) => if s in fs then fs[s := fs[s] - {name}] else fs
    case Rmdir(s) => fs - {s}
  }

  function Apply(fs: Fs, ops: seq<FileOp>): Fs {
    if ops == [] then fs else Do(Apply(fs, ops[..|ops| - 1]), ops[|ops| - 1])
  }

  lemma {:induction false} ApplyJoins(fs: Fs, a: seq<FileOp>, b: seq<FileOp>)
    ensures Apply(fs, a + b) == Apply(Apply(fs, a), b)
  {
    if b == [] {
      assert a + b == a;
    } else {
      ApplyJoins(fs, a, b[..|b| - 1]);
      assert (a + b)[..|a + b| - 1] == a + b[..|b| - 1];
    }
  }

  lemma ApplySnoc(fs: Fs, ops: seq<FileOp>, op: FileOp)
    ensures Apply(fs, ops + [op]) == Do(Apply(fs, ops), op)
  {
    assert (ops + [op])[..|ops|] == ops;
  }

  function Appends(shard: int, name: string, content: Content): seq<FileOp> {
    seq(|content|, i requires 0 <= i < |content| => AppendByte(shard, name, content[i]))
  }

  /** What filePut does: the directory twice, the temporary file byte by byte, then the rename. */
  function PutOps(shard: int, key: Key, content: Content): (ops: seq<FileOp>)
    ensures |ops| == |content| + 4
  {
    [Mkdir(shard), Mkdir(shard), Create(shard, TempName(key))] + Appends(shard, TempName(key), content)
    + [Rename(shard, TempName(key), KeyName(key))]
  }

  /** A call of filePut of which the first `done` operations took place. */
  datatype Put = Put(shard: int, key: Key, content: Content, done: nat)
  {
    function Ops(): seq<FileOp> {
      var all := PutOps(shard, key, content);
      if done < |all| then all[..done] else all
    }

    predicate Complete() {
      done >= |content| + 4
    }
  }

  function AllOps(puts: seq<Put>): seq<FileOp> {
    if puts == [] then [] else AllOps(puts[..|puts| - 1]) + puts[|puts| - 1].Ops()
  }

  lemma AllOpsSnoc(puts: seq<Put>, put: Put)
    ensures AllOps(puts + [put]) == AllOps(puts) + put.Ops()
  {
    assert (puts + [put])[..|puts|] == puts;
  }

  /** The content of a key's file. */
  function Holds(fs: Fs, shard: int, key: Key): Option<Content> {
    if shard in fs && KeyName(key) in fs[shard] then Some(fs[shard][KeyName(key)]) else None
  }

  function Look(m: map<Key, Content>, key: Key): Option<Content> {
    if key in m then Some(m[key]) else None
  }

  /** What a key should read as: the content of the last complete put of the key, or what was there before. */
  function Latest(before: Option<Content>, puts: seq<Put>, shard: int, key: Key): Option<Content> {
    if puts == [] then before
    else
      var p := puts[|puts| - 1];
      if p.shard == shard && p.key == key && p.Complete() then Some(p.content)
      else Latest(before, puts[..|puts| - 1], shard, key)
  }

  ghost predicate IsFileName(name: string) {
    exists key :: name == KeyName(key) || name == TempName(key)
  }

  /** No files but those that filePut makes. */
  ghost predicate StoreOk(fs: Fs) {
    forall s, name :: s in fs && name in fs[s] ==> IsFileName(name)
  }

  lemma NamesDiffer(a: Key, b: Key)
    ensures KeyName(a) != TempName(b)
    ensures KeyName(a) == KeyName(b) ==> a == b
  {
    assert KeyName(a)[0] != TempName(b)[0];
    if KeyName(a) == KeyName(b) {
      assert Encode(a) == KeyName(a)[4..] == KeyName(b)[4..] == Encode(b);
      EncodeInjective(a, b);
    }
  }

  /** The names on disk, for the key of the two letters "fo". */
  lemma NamesOfFo()
    ensures KeyName([0x66, 0x6F]) == "key-MZXQ====" && TempName([0x66, 0x6F]) == "temp-MZXQ===="
  {
    hide Encode;
    TestVector();
  }

  /** Up to the rename nothing but the temporary file has changed. */
  lemma {:induction false} WritingTemp(fs: Fs, shard: int, key: Key, content: Content, n: nat)
    requires 3 <= n <= |content| + 3
    ensures var dir := if shard in fs then fs[shard] else map[];
            Apply(fs, PutOps(shard, key, content)[..n]) == fs[shard := dir[TempName(key) := content[..n - 3]]]
  {
    var ops := PutOps(shard, key, content);
    hide Apply, Encode, TempName, KeyName;
    if n == 3 {
      EarlyOps(fs, shard, key, content, 2);
      assert ops[..3] == ops[..2] + [Create(shard, TempName(key))];
      ApplySnoc(fs, ops[..2], Create(shard, TempName(key)));
    } else {
      WritingTemp(fs, shard, key, content, n - 1);
      assert ops[..n] == ops[..n - 1] + [AppendByte(shard, TempName(key), content[n - 4])];
      ApplySnoc(fs, ops[..n - 1], AppendByte(shard, TempName(key), content[n - 4]));
      assert content[..n - 4] + [content[n - 4]] == content[..n - 3];
      var dir := if shard in fs then fs[shard] else map[];
      var before, after := dir[TempName(key) := content[..n - 4]], dir[TempName(key) := content[..n - 3]];
      assert before[TempName(key) := content[..n - 3]] == after;
      assert fs[shard := before][shard := after] == fs[shard := after];
    }
  }

  lemma EarlyOps(fs: Fs, shard: int, key: Key, content: Content, n: nat)
    requires n < 3
    ensures Apply(fs, PutOps(shard, key, content)[..n]) == if n == 0 then fs else Do(fs, Mkdir(shard))
  {
    var ops := PutOps(shard, key, content);
    assert Apply(fs, []) == fs;
    if n > 0 {
      assert ops[..1] == [Mkdir(shard)] && ops[..1][..0] == [];
      assert Apply(fs, ops[..1]) == Do(fs, Mkdir(shard));
      assert ops[..2][..1] == ops[..1] && ops[1] == Mkdir(shard);
    }
  }

  lemma WholePut(fs: Fs, shard: int, key: Key, content: Content)
    ensures var dir := if shard in fs then fs[shard] else map[];
            Apply(fs, PutOps(shard, key, content)) == fs[shard := (dir - {TempName(key)})[KeyName(key) := content]]
  {
    hide Apply, Encode, Appends;
    var ops := PutOps(shard, key, content);
    WritingTemp(fs, shard, key, content, |content| + 3);
    ApplySnoc(fs, ops[..|content| + 3], ops[|content| + 3]);
    assert ops == ops[..|content| + 3] + [ops[|content| + 3]];
    assert content[..|content|] == content;
    NamesDiffer(key, key);
    hide KeyName, TempName;
    var dir := if shard in fs then fs[shard] else map[];
    assert dir[TempName(key) := content] - {TempName(key)} == dir - {TempName(key)};
  }

  /** One put, cut anywhere: every key of every shard reads as before, except that the key put reads as
      the new content once the rename is done. */
  lemma PutIsAtomic(fs: Fs, put: Put, shard: int, key: Key)
    ensures Holds(Apply(fs, put.Ops()), shard, key)
            == if put.Complete() && put.shard == shard && put.key == key then Some(put.content)
               else Holds(fs, shard, key)
  {
    hide Apply, PutOps, KeyName, TempName;
    NamesDiffer(key, put.key);
    if put.Complete() {
      WholePut(fs, put.shard, put.key, put.content);
    } else if put.done < 3 {
      EarlyOps(fs, put.shard, put.key, put.content, put.done);
    } else {
      WritingTemp(fs, put.shard, put.key, put.content, put.done);
    }
  }

  lemma PutKeepsStore(fs: Fs, put: Put)
    requires StoreOk(fs)
    ensures StoreOk(Apply(fs, put.Ops()))
  {
    assert IsFileName(KeyName(put.key)) && IsFileName(TempName(put.key));
    if put.Complete() {
      WholePut(fs, put.shard, put.key, put.content);
    } else if put.done < 3 {
      EarlyOps(fs, put.shard, put.key, put.content, put.done);
    } else {
      WritingTemp(fs, put.shard, put.key, put.content, put.done);
    }
  }

  /** Any number of puts, any of them cut short by a crash or an error: each key reads as its latest
      complete put, and an interrupted put counts exactly when its rename was done. */
  lemma {:induction false} CrashAtomic(fs: Fs, puts: seq<Put>, shard: int, key: Key)
    requires StoreOk(fs)
    ensures Holds(Apply(fs, AllOps(puts)), shard, key) == Latest(Holds(fs, shard, key), puts, shard, key)
    ensures StoreOk(Apply(fs, AllOps(puts)))
  {
    if puts != [] {
      var init, p := puts[..|puts| - 1], puts[|puts| - 1];
      CrashAtomic(fs, init, shard, key);
      ApplyJoins(fs, AllOps(init), p.Ops());
      PutIsAtomic(Apply(fs, AllOps(init)), p, shard, key);
      PutKeepsStore(Apply(fs, AllOps(init)), p);
    }
  }

  /** Latest, by the puts alone. */
  lemma {:induction false} LatestIsLast(before: Option<Content>, puts: seq<Put>, shard: int, key: Key, i: nat)
    requires i < |puts| && puts[i].shard == shard && puts[i].key == key && puts[i].Complete()
    requires forall j :: i < j < |puts| ==> !(puts[j].shard == shard && puts[j].key == key && puts[j].Complete())
    ensures Latest(before, puts, shard, key) == Some(puts[i].content)
  {
    if i < |puts| - 1 {
      LatestIsLast(before, puts[..|puts| - 1], shard, key, i);
    }
  }

  lemma {:induction false} LatestIsOld(before: Option<Content>, puts: seq<Put>, shard: int, key: Key)
    requires forall j :: 0 <= j < |puts| ==> !(puts[j].shard == shard && puts[j].key == key && puts[j].Complete())
    ensures Latest(before, puts, shard, key) == before
  {
    if puts != [] {
      LatestIsOld(before, puts[..|puts| - 1], shard, key);
    }
  }

  // ---- reading a shard ----

  /** What fileReadShard needs of a directory: each name has four characters, and each name that begins
      with the prefix of keys decodes to a key that has a file. */
  predicate Readable(dir: Dir) {
    forall name :: name in dir ==> NameReadable(dir, name)
  }

  predicate NameReadable(dir: Dir, name: string) {
    |name| >= 4 && (name[..4] == "key-" ==> Decode(name[4..]).Bytes? && KeyName(Decode(name[4..]).bytes) in dir)
  }

  lemma KeyFileReadable(dir: Dir, key: Key)
    requires KeyName(key) in dir
    ensures NameReadable(dir, KeyName(key)) && Decode(KeyName(key)[4..]) == Bytes(key)
  {
    hide Encode, Decode;
    DecodeEncode(key);
    assert KeyName(key)[4..] == Encode(key);
  }

  lemma TempFileReadable(dir: Dir, key: Key)
    ensures NameReadable(dir, TempName(key))
  {
    hide Encode, Decode;
    assert TempName(key)[..4] == "temp";
    assert "temp"[0] != "key-"[0];
  }

  /** Of the store's own files none stops fileReadShard. */
  lemma StoreIsReadable(fs: Fs, shard: int)
    requires StoreOk(fs) && shard in fs
    ensures Readable(fs[shard])
  {
    hide KeyName, TempName, NameReadable;
    forall name | name in fs[shard] ensures NameReadable(fs[shard], name) {
      assert IsFileName(name);
      var key :| name == KeyName(key) || name == TempName(key);
      TempFileReadable(fs[shard], key);
      if name == KeyName(key) {
        KeyFileReadable(fs[shard], key);
      }
    }
  }

  // ---- replacing a shard ----

  function Removes(shard: int, names: seq<string>): seq<FileOp> {
    seq(|names|, i requires 0 <= i < |names| => Remove(shard, names[i]))
  }

  function ClearOps(shard: int, names: seq<string>): seq<FileOp> {
    [Mkdir(shard)] + Removes(shard, names) + [Rmdir(shard)]
  }

  /** What fileReplaceShard does: the files of the listing go one by one, then the directory, then the
      puts come one by one. */
  function ReplaceOps(shard: int, names: seq<string>, puts: seq<Put>): seq<FileOp> {
    ClearOps(shard, names) + AllOps(puts)
  }

  /** While the directory is being removed, a key reads as before or not at all; once it is gone, no key is left. */
  lemma {:induction false} Clearing(fs: Fs, shard: int, names: seq<string>, n: nat, s: int, key: Key)
    requires n <= |names| + 2
    ensures var after := Holds(Apply(fs, ClearOps(shard, names)[..n]), s, key);
            && (after == Holds(fs, s, key) || (s == shard && after == None))
            && (n == |names| + 2 && s == shard ==> after == None)
  {
    var ops := ClearOps(shard, names);
    if n > 0 {
      Clearing(fs, shard, names, n - 1, s, key);
      assert ops[..n][..n - 1] == ops[..n - 1];
      assert n == 1 ==> ops[0] == Mkdir(shard);
      assert 1 < n < |names| + 2 ==> ops[n - 1] == Remove(shard, names[n - 2]);
    }
  }

  lemma CutPut(p: Put, n: nat)
    requires n <= |p.Ops()|
    ensures p.(done := n).Ops() == p.Ops()[..n] && n <= p.done
  {
    hide PutOps;
  }

  /** The operations of a list of puts, cut after n of them, are those of a list of puts again: the ones
      before the cut, and the one that is cut. */
  lemma {:induction false} CutPuts(puts: seq<Put>, n: nat) returns (cut: seq<Put>)
    requires n <= |AllOps(puts)|
    ensures AllOps(cut) == AllOps(puts)[..n] && |cut| <= |puts|
    ensures forall i :: 0 <= i < |cut| ==> cut[i] == puts[i].(done := cut[i].done) && cut[i].done <= puts[i].done
  {
    hide Put.Ops;
    if puts == [] {
      cut := [];
    } else {
      var init, p := puts[..|puts| - 1], puts[|puts| - 1];
      if n <= |AllOps(init)| {
        cut := CutPuts(init, n);
        assert AllOps(puts)[..n] == AllOps(init)[..n];
      } else {
        var q := p.(done := n - |AllOps(init)|);
        cut := init + [q];
        assert cut[..|cut| - 1] == init;
        CutPut(p, n - |AllOps(init)|);
      }
    }
  }

  lemma {:induction false} ClearedOk(fs: Fs, shard: int, names: seq<string>, n: nat)
    requires StoreOk(fs) && n <= |names| + 2
    ensures StoreOk(Apply(fs, ClearOps(shard, names)[..n]))
  {
    var ops := ClearOps(shard, names);
    if n > 0 {
      ClearedOk(fs, shard, names, n - 1);
      assert ops[..n][..n - 1] == ops[..n - 1];
    }
  }

  /** Once the directory is gone, and until its put, a key of the shard has no content, whatever it had. */
  lemma ReplaceLosesKeys(fs: Fs, shard: int, names: seq<string>, puts: seq<Put>, key: Key) returns (n: nat)
    ensures n <= |ReplaceOps(shard, names, puts)|
    ensures Holds(Apply(fs, ReplaceOps(shard, names, puts)[..n]), shard, key) == None
  {
    var clear := ClearOps(shard, names);
    Clearing(fs, shard, names, |clear|, shard, key);
    assert ReplaceOps(shard, names, puts)[..|clear|] == clear == clear[..|clear|];
    n := |clear|;
  }

  /** The puts are those of the loop over m, one for each key, and complete except for the failing keys. */
  ghost predicate Installs(puts: seq<Put>, shard: int, m: map<Key, Content>, failing: set<Key>) {
    && (forall i :: 0 <= i < |puts| ==> IsPutOf(puts[i], shard, m, failing))
    && (forall i, j :: 0 <= i < j < |puts| ==> puts[i].key != puts[j].key)
    && (forall key :: key in m ==> HasPut(puts, key))
  }

  ghost predicate IsPutOf(put: Put, shard: int, m: map<Key, Content>, failing: set<Key>) {
    put.shard == shard && put.key in m && put.content == m[put.key] && (put.Complete() <==> put.key !in failing)
  }

  ghost predicate HasPut(puts: seq<Put>, key: Key) {
    exists i :: 0 <= i < |puts| && puts[i].key == key
  }

  /** What a key reads as after the replacement. */
  function Installed(m: map<Key, Content>, failing: set<Key>, key: Key): Option<Content> {
    if key in failing then None else Look(m, key)
  }

  lemma LatestInstalled(puts: seq<Put>, shard: int, m: map<Key, Content>, failing: set<Key>, key: Key)
    requires Installs(puts, shard, m, failing)
    ensures Latest(None, puts, shard, key) == Installed(m, failing, key)
  {
    hide Latest;
    if key in m && key !in failing {
      assert HasPut(puts, key);
      var i :| 0 <= i < |puts| && puts[i].key == key;
      assert IsPutOf(puts[i], shard, m, failing);
      LatestIsLast(None, puts, shard, key, i);
    } else {
      forall j | 0 <= j < |puts| ensures !(puts[j].key == key && puts[j].Complete()) {
        assert IsPutOf(puts[j], shard, m, failing);
      }
      LatestIsOld(None, puts, shard, key);
    }
  }

  /** Cutting the puts short only loses keys. */
  lemma LatestOfCut(puts: seq<Put>, cut: seq<Put>, shard: int, m: map<Key, Content>, failing: set<Key>, key: Key)
    requires Installs(puts, shard, m, failing) && |cut| <= |puts|
    requires forall i :: 0 <= i < |cut| ==> cut[i] == puts[i].(done := cut[i].done) && cut[i].done <= puts[i].done
    ensures Latest(None, cut, shard, key) in {None, Installed(m, failing, key)}
  {
    hide Latest;
    if i :| 0 <= i < |cut| && cut[i].key == key && cut[i].Complete() {
      assert IsPutOf(puts[i], shard, m, failing);
      LatestIsLast(None, cut, shard, key, i);
    } else {
      LatestIsOld(None, cut, shard, key);
    }
  }

  /** The operations after the clearing, cut anywhere, leave a key with nothing or with its new content. */
  lemma AfterClearing(fs: Fs, shard: int, names: seq<string>, puts: seq<Put>, n: nat,
                      m: map<Key, Content>, failing: set<Key>, key: Key)
    requires StoreOk(fs) && Installs(puts, shard, m, failing)
    requires |ClearOps(shard, names)| <= n <= |ReplaceOps(shard, names, puts)|
    ensures Holds(Apply(fs, ReplaceOps(shard, names, puts)[..n]), shard, key) in {None, Installed(m, failing, key)}
  {
    hide Apply, Installs, Installed, StoreOk, Latest, Holds;
    var clear := ClearOps(shard, names);
    var cut := CutPuts(puts, n - |clear|);
    assert ReplaceOps(shard, names, puts)[..n] == clear + AllOps(cut);
    ApplyJoins(fs, clear, AllOps(cut));
    assert clear[..|clear|] == clear;
    Clearing(fs, shard, names, |clear|, shard, key);
    ClearedOk(fs, shard, names, |clear|);
    CrashAtomic(Apply(fs, clear), cut, shard, key);
    LatestOfCut(puts, cut, shard, m, failing, key);
  }

  lemma DuringClearing(fs: Fs, shard: int, names: seq<string>, puts: seq<Put>, n: nat, key: Key)
    requires n <= |ClearOps(shard, names)|
    ensures Holds(Apply(fs, ReplaceOps(shard, names, puts)[..n]), shard, key) in {None, Holds(fs, shard, key)}
  {
    hide Apply, Holds;
    assert ReplaceOps(shard, names, puts)[..n] == ClearOps(shard, names)[..n];
    Clearing(fs, shard, names, n, shard, key);
  }

  /** fileReplaceShard(m) cut anywhere is not atomic, but it never mixes the two states: either each key that
      reads has its old content, or each key that reads has the content that m gives it. */
  lemma InterruptedReplace(fs: Fs, shard: int, names: seq<string>, puts: seq<Put>, n: nat,
                           m: map<Key, Content>, failing: set<Key>)
    requires n <= |ReplaceOps(shard, names, puts)| && StoreOk(fs) && Installs(puts, shard, m, failing)
    ensures var fs' := Apply(fs, ReplaceOps(shard, names, puts)[..n]);
            || (forall key :: Holds(fs', shard, key) in {None, Holds(fs, shard, key)})
            || (forall key :: Holds(fs', shard, key) in {None, Installed(m, failing, key)})
  {
    hide Apply, Installs, Installed, StoreOk, Holds;
    var fs' := Apply(fs, ReplaceOps(shard, names, puts)[..n]);
    if n <= |ClearOps(shard, names)| {
      forall key ensures Holds(fs', shard, key) in {None, Holds(fs, shard, key)} {
        DuringClearing(fs, shard, names, puts, n, key);
      }
    } else {
      forall key ensures Holds(fs', shard, key) in {None, Installed(m, failing, key)} {
        AfterClearing(fs, shard, names, puts, n, m, failing, key);
      }
    }
  }

  /** A key is replaced atomically, at whatever point the replacement is cut, if and only if it has no content
      before or none after. A key in both states is lost by a crash in between, even if its content is the same. */
  lemma ReplacedAtomically(fs: Fs, shard: int, names: seq<string>, puts: seq<Put>,
                           m: map<Key, Content>, failing: set<Key>, key: Key)
    requires StoreOk(fs) && Installs(puts, shard, m, failing)
    ensures
      (forall n: nat | n <= |ReplaceOps(shard, names, puts)| ::
         Holds(Apply(fs, ReplaceOps(shard, names, puts)[..n]), shard, key)
         in {Holds(fs, shard, key), Installed(m, failing, key)})
      <==> Holds(fs, shard, key).None? || Installed(m, failing, key).None?
  {
    hide Apply, Installs, Installed, StoreOk, Holds, ReplaceOps;
    var lost := ReplaceLosesKeys(fs, shard, names, puts, key);
    if Holds(fs, shard, key).None? || Installed(m, failing, key).None? {
      forall n: nat | n <= |ReplaceOps(shard, names, puts)|
        ensures Holds(Apply(fs, ReplaceOps(shard, names, puts)[..n]), shard, key)
                in {Holds(fs, shard, key), Installed(m, failing, key)}
      {
        if n <= |ClearOps(shard, names)| {
          DuringClearing(fs, shard, names, puts, n, key);
        } else {
          AfterClearing(fs, shard, names, puts, n, m, failing, key);
        }
      }
    }
  }

  /** Uncut, each key of the shard reads as m says. */
  lemma WholeReplace(fs: Fs, shard: int, names: seq<string>, puts: seq<Put>,
                     m: map<Key, Content>, failing: set<Key>, key: Key)
    requires StoreOk(fs) && Installs(puts, shard, m, failing)
    ensures Holds(Apply(fs, ReplaceOps(shard, names, puts)), shard, key) == Installed(m, failing, key)
  {
    hide Apply, Installs, Installed, StoreOk, Latest, Holds;
    var clear := ClearOps(shard, names);
    ApplyJoins(fs, clear, AllOps(puts));
    assert clear[..|clear|] == clear;
    Clearing(fs, shard, names, |clear|, shard, key);
    ClearedOk(fs, shard, names, |clear|);
    CrashAtomic(Apply(fs, clear), puts, shard, key);
    LatestInstalled(puts, shard, m, failing, key);
  }
}
