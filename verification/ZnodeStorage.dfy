/** A replica's storage under accepted requests: when it stays a tree that a later leader can load
    as a whole. */
module ZnodeStorage {
  import opened Wrappers
  import opened Znodes
  import opened ZnodeAgreement
  import opened ZnodeRuns
  import opened ZnodeTrees
  import opened ZnodeLoading

  /** Creates bring no children, updates repeat the children of the znode, and the session directory
      is not deleted. */
  ghost predicate Tidying(c: Tree, req: WriteRequest) {
    match req.kind
    case Create => req.znodes == [] || req.znodes[0].children == []
    case SetData => req.znodes == [] || NamesChildren(c, req.znodes[0].path, req.znodes[0].children)
    case WatchTrigger => forall i :: 0 <= i < |req.znodes| ==> NamesChildren(c, req.znodes[i].path, req.znodes[i].children)
    case Delete => req.znodes == [] || req.znodes[0].path != [SESSION_DIR]
    case _ => true
  }

  lemma SameNames(c: Tree, s: Tree, p: Path, names: seq<string>)
    requires c.Keys == s.Keys
    ensures NamesChildren(c, p, names) <==> NamesChildren(s, p, names)
  {
    assert forall q: Path :: q in c <==> q in s;
  }

  lemma GrownTidy(s: Tree, s': Tree, par: Path, name: string)
    requires Tidy(s) && Grown(s, s', par, name)
    ensures Tidy(s')
  {
    GrownParents(s, s', par, name);
    GrownListed(s, s', par, name);
    hide AllHaveParents, ListedExist;
  }

  lemma CreateGrows(s: Tree, z: ZNode)
    requires Keyed(s) && z.path !in s && Dir(z.path) in s && z.children == []
    requires z.ephemeral != "" ==> SessionPath(z.ephemeral) in s && s[SessionPath(z.ephemeral)].data.SessionData?
    ensures Grown(s, WriteCreate(s, z).1, Dir(z.path), Base(z.path))
  {
    PathParts(z.path);
    hide Dir, Base;
    var par := Dir(z.path);
    var s1 := WriteOp(s, WithChild(s[par], Base(z.path)));
    assert s1 == s[par := WithChild(s[par], Base(z.path))];
  }

  lemma CreateTidy(c: Tree, s: Tree, z: ZNode)
    requires c.Keys == s.Keys && Alike(c, s, false) && Keyed(s) && Tidy(s) && CheckCreate(c, z).0.Ok? && z.children == []
    ensures Tidy(WriteCreate(s, CheckCreate(c, z).0.value).1)
  {
    var made := CheckCreate(c, z).0.value;
    if z.ephemeral != "" { assert AlikeAt(c[SessionPath(z.ephemeral)], s[SessionPath(z.ephemeral)], false); }
    hide Dir, Base, Tidy, Grown, WriteCreate;
    CreateGrows(s, made);
    GrownTidy(s, WriteCreate(s, made).1, Dir(z.path), Base(z.path));
  }

  lemma UpdateKeepsTidy(c: Tree, s: Tree, z: ZNode)
    requires c.Keys == s.Keys && Tidy(s) && CheckUpdate(c, z).0.Ok? && NamesChildren(c, z.path, z.children)
    ensures Tidy(WriteOp(s, CheckUpdate(c, z).0.value))
  {
    SameNames(c, s, z.path, z.children);
    hide Tidy, NamesChildren;
    UpdateTidy(s, CheckUpdate(c, z).0.value);
  }

  lemma {:induction false} UpdatesKeepTidy(c: Tree, s: Tree, zs: seq<ZNode>)
    requires c.Keys == s.Keys && Tidy(s) && CheckUpdates(c, zs).0.Ok?
    requires forall i :: 0 <= i < |zs| ==> NamesChildren(c, zs[i].path, zs[i].children)
    ensures Tidy(WriteAll(s, CheckUpdates(c, zs).0.value))
    decreases |zs|
  {
    hide Tidy, NamesChildren;
    if zs != [] {
      var (r, c1) := CheckUpdate(c, zs[0]);
      UpdateKeepsTidy(c, s, zs[0]);
      assert c1.Keys == c.Keys;
      var s1 := WriteOp(s, r.value);
      assert s1.Keys == s.Keys;
      forall i | 0 <= i < |zs[1..]| ensures NamesChildren(c1, zs[1..][i].path, zs[1..][i].children) {
        assert NamesChildren(c, zs[i + 1].path, zs[i + 1].children);
        SameNames(c, c1, zs[i + 1].path, zs[i + 1].children);
      }
      UpdatesKeepTidy(c1, s1, zs[1..]);
      var rest := CheckUpdates(c1, zs[1..]).0.value;
      assert CheckUpdates(c, zs).0.value == [r.value] + rest;
      assert ([r.value] + rest)[1..] == rest;
    }
  }

  lemma DeleteTidy(s: Tree, p: Path)
    requires Keyed(s) && Tidy(s) && p in s && p != [] && p != [SESSION_DIR] && Childless(s, p)
    ensures DeleteOp(s, p).0.Ok? && Tidy(DeleteOp(s, p).1)
  {
    assert HasParent(s, p);
    RemovedIsShrunk(s, p);
    hide Dir, Base, DeleteOp, Keyed, Childless, HasParent, Shrunk;
    ShrunkTidy(s, DeleteOp(s, p).1, Dir(p), Base(p));
  }

  lemma ShrunkTidy(s: Tree, s': Tree, par: Path, name: string)
    requires Tidy(s) && Shrunk(s, s', par, name) && par + [name] != [SESSION_DIR]
    ensures Tidy(s')
  {
    ShrunkParents(s, s', par, name);
    ShrunkListed(s, s', par, name);
    hide AllHaveParents, ListedExist, Without, Childless;
  }

  lemma RemovedIsShrunk(s: Tree, p: Path)
    requires Keyed(s) && p in s && p != [] && Childless(s, p) && Dir(p) in s
    ensures Shrunk(s, DeleteOp(s, p).1, Dir(p), Base(p)) && p == Dir(p) + [Base(p)]
  {
    PathParts(p);
    assert Dir(p) != p;
    hide Dir, Base, Without, Below;
    var s1 := WriteOp(s, s[Dir(p)].(children := Without(s[Dir(p)].children, Base(p))));
    assert s1 == s[Dir(p) := s1[Dir(p)]];
    assert Removed(s1, p).Keys == s.Keys - {p};
  }

  lemma AcceptedCreateTidy(c: Tree, storage: Tree, s: Tree, req: WriteRequest)
    requires Alike(c, s, false) && Keyed(s) && Tidy(s)
    requires req.kind == Create && Check(c, storage, req).0.Ok? && Tidying(c, req)
    ensures Tidy(Write(s, Check(c, storage, req).0.value).1)
  {
    hide Dir, Base, CheckCreate, WriteCreate, Tidy, Keyed, SequentialPath, Alike;
    AlikeKeys(c, s, false);
    var z := req.znodes[0];
    var named := if z.sequential then z.(path := SequentialPath(c, z.path)) else z;
    assert CheckCreate(c, named).0.Ok?;
    CreateTidy(c, s, named);
  }

  lemma AcceptedDeleteTidy(c: Tree, storage: Tree, s: Tree, req: WriteRequest)
    requires Alike(c, s, false) && Keyed(s) && Tidy(s)
    requires req.kind == Delete && Check(c, storage, req).0.Ok? && Leaf(c, req) && Tidying(c, req)
    ensures Tidy(Write(s, Check(c, storage, req).0.value).1)
  {
    hide Dir, Base, Tidy, Keyed, Alike, Childless, DeleteOp, CheckDelete;
    AlikeKeys(c, s, false);
    CheckedDelete(c, req.znodes[0]);
    SameChildless(c, s, req.znodes[0].path);
    DeleteTidy(s, req.znodes[0].path);
  }

  lemma AcceptedUpdateTidy(c: Tree, storage: Tree, s: Tree, req: WriteRequest)
    requires Alike(c, s, false) && Keyed(s) && Tidy(s)
    requires (req.kind == SetData || req.kind == WatchTrigger) && Check(c, storage, req).0.Ok? && Tidying(c, req)
    ensures Tidy(Write(s, Check(c, storage, req).0.value).1)
  {
    hide Tidy, Keyed, Alike, CheckUpdate, CheckUpdates, WriteAll, WriteOp, NamesChildren;
    AlikeKeys(c, s, false);
    if req.kind == SetData {
      assert CheckUpdate(c, req.znodes[0]).0.Ok?;
      UpdateKeepsTidy(c, s, req.znodes[0]);
    } else {
      UpdatesKeepTidy(c, s, req.znodes);
    }
  }

  /** An accepted tidying request leaves a storage that agrees with the cache tidy. */
  lemma AcceptedKeepsTidy(c: Tree, storage: Tree, s: Tree, req: WriteRequest)
    requires Alike(c, s, false) && Keyed(s) && Tidy(s)
    requires Check(c, storage, req).0.Ok? && req.kind != DeleteSession && Leaf(c, req) && Tidying(c, req)
    ensures Tidy(Write(s, Check(c, storage, req).0.value).1)
  {
    hide Tidy, Keyed, Alike, Leaf, Tidying;
    if req.kind == Create {
      AcceptedCreateTidy(c, storage, s, req);
    } else if req.kind == Delete {
      AcceptedDeleteTidy(c, storage, s, req);
    } else if req.kind == SetData || req.kind == WatchTrigger {
      AcceptedUpdateTidy(c, storage, s, req);
    } else {
      KeptAsItIs(c, storage, s, req);
    }
  }

  lemma KeptAsItIs(c: Tree, storage: Tree, s: Tree, req: WriteRequest)
    requires (req.kind == Sync || req.kind == Unknown) && Check(c, storage, req).0.Ok?
    ensures Write(s, Check(c, storage, req).0.value).1 == s
  {
  }

  lemma CheckedDelete(c: Tree, z: ZNode)
    requires CheckDelete(c, z).0.Ok?
    ensures z.path in c
  {
  }

  lemma SameChildless(c: Tree, s: Tree, p: Path)
    requires c.Keys == s.Keys
    ensures Childless(c, p) <==> Childless(s, p)
  {
  }

  // ---- What an update without children does ----

  /** An accepted update that brings no children, as every `setdata` of a client does, cuts off
      everything below its znode: the entries stay in storage, but the next leader does not load
      them. */
  lemma ForgetsChildren(s: Tree, z: ZNode, name: string)
    requires Tidy(s) && z.path in s && z.children == [] && z.path + [name] in s && z.path + [name] != [SESSION_DIR]
    ensures var s' := WriteOp(s, z);
            && z.path + [name] in s' && Loaded(s').Some?
            && z.path + [name] !in Loaded(s').value && z.path in Loaded(s').value && Loaded(s').value[z.path] == z
  {
    var s', p := WriteOp(s, z), z.path;
    assert s'.Keys == s.Keys;
    var q := p + [name];
    ChildPath(p, name);
    assert ListedExist(s') by {
      forall x, n | x in s' && n in s'[x].children ensures x + [n] in s' { assert x != p && n in s[x].children; }
    }
    NoGap(s', []);
    NoGap(s', [SESSION_DIR]);
    assert !Listed(s', [], q) && !Listed(s', [SESSION_DIR], q);
    StillLoaded(s, z);
    hide NothingMissing, Listed, Tidy;
    LoadedKeys(s');
  }

  /** The updated znode itself is still reached. */
  lemma StillLoaded(s: Tree, z: ZNode)
    requires Tidy(s) && z.path in s && z.children == []
    ensures z.path == [] || z.path == [SESSION_DIR] || Listed(WriteOp(s, z), [], z.path) || Listed(WriteOp(s, z), [SESSION_DIR], z.path)
  {
    if z.path != [] && z.path != [SESSION_DIR] {
      TidyIsLinked(s);
      LinkedIsReached(s, z.path);
      var from := if Listed(s, [], z.path) then [] else [SESSION_DIR];
      ListedAbove(s, WriteOp(s, z), from, z.path, z.path);
    }
  }

  lemma {:induction false} ListedAbove(s: Tree, s': Tree, from: Path, q: Path, p: Path)
    requires Listed(s, from, q) && |q| <= |p| && s.Keys == s'.Keys
    requires forall x :: x in s && x != p ==> s'[x] == s[x]
    ensures Listed(s', from, q)
    decreases |q|
  {
    if Dir(q) != from {
      ListedAbove(s, s', from, Dir(q), p);
    }
  }

  // ---- The first write of an empty replica ----

  /** A replica with no root creates its base znodes at a first create right under the root or the
      session directory, which then succeeds; any other create fails there. */
  lemma FirstCreate(z: ZNode)
    requires z.ephemeral == "" && z.path != [] && z.path != [SESSION_DIR]
    ensures var (r, s) := Write(map[], WriteRequest(Create, [z]));
            && (r.Ok? <==> Dir(z.path) == [] || Dir(z.path) == [SESSION_DIR])
            && (r.Ok? ==>
                 && r == Ok([z.path]) && s.Keys == {[], [SESSION_DIR], z.path} && s[z.path] == z
                 && s[Dir(z.path)].children == [Base(z.path)]
                 && Keyed(s) && (z.children == [] ==> Tidy(s)))
  {
    hide Dir, Base, InitBase, Tidy, Keyed;
    FirstStorage();
    PathParts(z.path);
    if Dir(z.path) == [] || Dir(z.path) == [SESSION_DIR] { UnderBase(z); }
  }

  lemma UnderBase(z: ZNode)
    requires z.ephemeral == "" && z.path != [] && z.path != [SESSION_DIR] && (Dir(z.path) == [] || Dir(z.path) == [SESSION_DIR])
    ensures var (r, s) := WriteCreate(map[], z);
            && r == Ok([z.path]) && s.Keys == {[], [SESSION_DIR], z.path} && s[z.path] == z
            && Dir(z.path) in s && s[Dir(z.path)].children == [Base(z.path)]
            && Keyed(s) && (z.children == [] ==> Tidy(s))
  {
    hide *;
    var t := InitBase(map[]);
    FirstStorage();
    BaseLists(map[]);
    AsIfThere(z);
    WrittenKeyed(t, z);
    WrittenUnder(t, z);
    if z.children == [] {
      CreateGrows(t, z);
      GrownTidy(t, WriteCreate(t, z).1, Dir(z.path), Base(z.path));
    }
  }

  lemma BaseLists(s: Tree)
    ensures InitBase(s).Keys == s.Keys + {[], [SESSION_DIR]} && InitBase(s)[[]].children == [] && InitBase(s)[[SESSION_DIR]].children == []
  {
  }

  /** The base znodes are written first. */
  lemma AsIfThere(z: ZNode)
    requires Dir(z.path) == [] || Dir(z.path) == [SESSION_DIR]
    ensures WriteCreate(map[], z) == WriteCreate(InitBase(map[]), z)
  {
    BaseLists(map[]);
    hide InitBase, Dir, Base;
  }

  lemma WrittenUnder(t: Tree, z: ZNode)
    requires Keyed(t) && Dir(z.path) in t && z.path !in t && z.ephemeral == ""
    ensures var (r, s) := WriteCreate(t, z);
            && r == Ok([z.path]) && s.Keys == t.Keys + {z.path} && s[z.path] == z
            && s[Dir(z.path)].children == t[Dir(z.path)].children + [Base(z.path)]
  {
    hide Dir, Base;
  }

  lemma WrittenKeyed(t: Tree, z: ZNode)
    requires Keyed(t) && Dir(z.path) in t && z.ephemeral == ""
    ensures Keyed(WriteCreate(t, z).1)
  {
    hide Dir, Base;
  }

  /** What a create leaves behind that fails on a replica: nothing if the parent is missing; but if only
      the session of an ephemeral znode is, or is no session, the parent already lists the child, and the
      storage no longer loads as a whole. */
  lemma FailedCreateLeaves(s: Tree, z: ZNode)
    requires Keyed(s) && z.path !in s && !Write(s, WriteRequest(Create, [z])).0.Ok?
    ensures var (r, s') := Write(s, WriteRequest(Create, [z]));
            && (Dir(z.path) !in s ==> r == Err(ExistsError) && s' == s)
            && (Dir(z.path) in s ==>
                 && z.ephemeral != "" && (r == Err(ExistsError) || r == Err(CriticalError))
                 && (r == Err(ExistsError) <==> SessionPath(z.ephemeral) !in s)
                 && s' == s[Dir(z.path) := WithChild(s[Dir(z.path)], Base(z.path))] && Loaded(s') != Some(s'))
  {
    hide Dir, Base, Loaded, Linked;
    if Dir(z.path) in s {
      assert Dir(z.path) != z.path;
      ListsMissing(s[Dir(z.path) := WithChild(s[Dir(z.path)], Base(z.path))], z.path);
    }
  }

  lemma ListsMissing(s: Tree, p: Path)
    requires p != [] && p !in s && Dir(p) in s && Base(p) in s[Dir(p)].children
    ensures Loaded(s) != Some(s)
  {
    PathParts(p);
    LoadedIsAll(s);
    hide Loaded, Dir, Base;
    assert !ListedExist(s);
  }
}
