/** The znode package as the server runs it: the cache and the stored files updated in place, child
    lists searched by loops, the cache loaded layer by layer. Each method is proved to do what its
    counterpart in `Znodes` says. */
module ZnodeHandlers {
  import SeqNames
  import opened Znodes
  import opened ZnodeAgreement
  import opened ZnodeTrees
  import opened ZnodeLoading
  import opened Wrappers

  /** Drops the first child of that name. */
  method RemoveChild(children: seq<string>, name: string) returns (rest: seq<string>)
    ensures rest == Without(children, name)
  {
    for i := 0 to |children|
      invariant Without(children, name) == children[..i] + Without(children[i..], name)
    {
      if children[i] == name {
        return children[..i] + children[i + 1..];
      }
      assert children[i..] == [children[i]] + children[i + 1..];
      assert children[..i + 1] == children[..i] + [children[i]];
    }
    assert children[|children|..] == [];
    assert children[..|children|] == children;
    rest := children;
  }

  class ZnodeStore {
    var files: Tree

    constructor ()
      ensures files == map[]
    {
      files := map[];
    }

    method GetData(path: Path) returns (r: Result<ZNode>)
      ensures r == if path in files then Ok(files[path]) else Err(ExistsError)
    {
      r := if path in files then Ok(files[path]) else Err(ExistsError);
    }

    method WriteZNode(z: ZNode)
      modifies this
      ensures files == WriteOp(old(files), z)
    {
      files := files[z.path := z];
    }

    /** Removes the directory of a znode. */
    method DeleteZNode(p: Path)
      modifies this
      ensures files == Removed(old(files), p)
    {
      files := map q | q in files && q != p && !Below(p, q) :: files[q];
    }

    method InitBaseZnode()
      modifies this
      ensures files == InitBase(old(files))
    {
      WriteZNode(BASE_ZNODE);
      WriteZNode(SESSION_ZNODE);
    }

    method DeleteOp(p: Path) returns (r: Result<()>)
      modifies this
      ensures (r, files) == Znodes.DeleteOp(old(files), p)
    {
      var parent := GetData(Dir(p));
      match parent {
        case Err(e) => return Err(e);
        case Panic => return Panic;
        case Ok(n) =>
          var children := RemoveChild(n.children, Base(p));
          WriteZNode(n.(children := children));
          DeleteZNode(p);
          return Ok(());
      }
    }

    method WriteCreate(z: ZNode) returns (r: Result<seq<Path>>)
      modifies this
      ensures (r, files) == Znodes.WriteCreate(old(files), z)
    {
      var parentPath := Dir(z.path);
      if parentPath == [] || parentPath == [SESSION_DIR] {
        if [] !in files {
          InitBaseZnode();
        }
      }
      var parent := GetData(parentPath);
      if !parent.Ok? {
        return Err(ExistsError);
      }
      WriteZNode(parent.value.(children := parent.value.children + [Base(z.path)]));
      if z.ephemeral != "" {
        var session := GetData(SessionPath(z.ephemeral));
        if !session.Ok? {
          return Err(ExistsError);
        }
        if !session.value.data.SessionData? {
          return Err(CriticalError);
        }
        var owned := session.value.data.session;
        WriteZNode(session.value.(data := SessionData(owned.(ephemerals := owned.ephemerals + [z.path])),
                                  version := session.value.version + 1));
      }
      WriteZNode(z);
      return Ok([z.path]);
    }

    method WriteDeleteSession(z: ZNode) returns (r: Result<seq<Path>>)
      modifies this
      ensures (r, files) == Znodes.WriteDeleteSession(old(files), z)
    {
      var session := GetData(z.path);
      if !session.Ok? {
        return Err(ExistsError);
      }
      if !session.value.data.SessionData? {
        return Err(CriticalError);
      }
      var owned := session.value.data.session.ephemerals;
      ghost var all := DeleteAll(files, owned);
      hide Znodes.DeleteOp;
      for i := 0 to |owned|
        invariant DeleteAll(files, owned[i..]) == all
      {
        assert owned[i..][1..] == owned[i + 1..];
        var n := GetData(owned[i]);
        if !n.Ok? {
          return Err(ExistsError);
        }
        var d := DeleteOp(n.value.path);
        if !d.Ok? {
          return if d.Panic? then Panic else Err(d.error);
        }
      }
      assert owned[|owned|..] == [];
      var d := DeleteOp(z.path);
      match d {
        case Ok(_) => return Ok(owned);
        case Err(e) => return Err(e);
        case Panic => return Panic;
      }
    }

    /** Applies a committed request. */
    method Write(req: WriteRequest) returns (r: Result<seq<Path>>)
      modifies this
      ensures (r, files) == Znodes.Write(old(files), req)
    {
      hide Znodes.DeleteOp, Znodes.WriteCreate, Znodes.WriteDeleteSession;
      match req.kind {
        case Create =>
          if req.znodes == [] {
            return Panic;
          }
          r := WriteCreate(req.znodes[0]);
        case SetData =>
          if req.znodes == [] {
            return Panic;
          }
          WriteZNode(req.znodes[0]);
          return Ok([req.znodes[0].path]);
        case Delete =>
          if req.znodes == [] {
            return Panic;
          }
          var d := DeleteOp(req.znodes[0].path);
          match d {
            case Ok(_) => return Ok([req.znodes[0].path]);
            case Err(e) => return Err(e);
            case Panic => return Panic;
          }
        case DeleteSession =>
          if req.znodes == [] {
            return Panic;
          }
          r := WriteDeleteSession(req.znodes[0]);
        case WatchTrigger =>
          for i := 0 to |req.znodes|
            invariant WriteAll(files, req.znodes[i..]) == WriteAll(old(files), req.znodes)
          {
            assert req.znodes[i..][1..] == req.znodes[i + 1..];
            WriteZNode(req.znodes[i]);
          }
          assert req.znodes[|req.znodes|..] == [];
          return Ok([]);
        case _ => return Err(InvalidRequestError);
      }
    }
  }

  /** `done` put in front of what the remaining updates yield. */
  ghost function Earlier(done: seq<ZNode>, rest: (Result<seq<ZNode>>, Tree)): (Result<seq<ZNode>>, Tree) {
    (if rest.0.Ok? then Ok(done + rest.0.value) else rest.0, rest.1)
  }

  lemma OneUpdateDone(done: seq<ZNode>, c: Tree, zs: seq<ZNode>)
    requires zs != [] && CheckUpdate(c, zs[0]).0.Ok?
    ensures var (r, c1) := CheckUpdate(c, zs[0]);
            Earlier(done, CheckUpdates(c, zs)) == Earlier(done + [r.value], CheckUpdates(c1, zs[1..]))
  {
    var (r, c1) := CheckUpdate(c, zs[0]);
    hide CheckUpdate;
    var rest := CheckUpdates(c1, zs[1..]);
    if rest.0.Ok? {
      assert done + ([r.value] + rest.0.value) == (done + [r.value]) + rest.0.value;
    }
  }

  class ZnodeCache {
    const store: ZnodeStore
    var cache: Tree
    var initialised: bool

    constructor (store: ZnodeStore)
      ensures this.store == store && cache == map[] && !initialised
    {
      this.store := store;
      cache, initialised := map[], false;
    }

    // ---- Loading ----

    /** Loads what is reached from a path through the stored child lists, child by child; it fails
        exactly if a list names a child without a znode. */
    method PopulateLayer(path: Path) returns (ok: bool)
      modifies this`cache
      ensures ok <==> NothingMissing(store.files, path)
      ensures ok ==> cache == old(cache) + Reached(store.files, path)
      decreases |Descendants(store.files, path)|
    {
      hide NothingMissing, Reached, ReachedVia;
      var s := store.files;
      if path !in s {
        assert !NothingMissing(s, path) by { GapIfAbsent(s, path); }
        return false;
      }
      GapsAreBelow(s, path);
      var children := s[path].children;
      ReachedViaNone(s, path, cache);
      for i := 0 to |children|
        invariant cache == old(cache) + ReachedVia(s, path, children[..i])
        invariant forall name :: name in children[..i] ==> path + [name] in s && NothingMissing(s, path + [name])
      {
        var child := path + [children[i]];
        if child !in s {
          return false;
        }
        ghost var before := cache;
        cache := cache[child := s[child]];
        ChildHasFewer(s, path, children[i]);
        ok := PopulateLayer(child);
        if !ok {
          return false;
        }
        ReachedViaOneMore(s, path, children[..i], children[i]);
        MergeAgain(old(cache), ReachedVia(s, path, children[..i]), child, s[child], Reached(s, child));
        assert children[..i + 1] == children[..i] + [children[i]];
      }
      assert children[..|children|] == children;
      ReachedViaAll(s, path);
      return true;
    }

    /** Before a node leads it loads its cache from storage, which gets its base znodes first if it
        is new. */
    method Init() returns (ok: bool)
      modifies this, store
      ensures store.files == if [] in old(store.files) then old(store.files) else InitBase(old(store.files))
      ensures ok <==> Loaded(store.files).Some?
      ensures ok ==> initialised && cache == Loaded(store.files).value
      ensures !ok ==> initialised == old(initialised)
      ensures [] !in old(store.files) ==> ok && cache.Keys == {[], [SESSION_DIR]} && forall p :: p in cache ==> BaseLike(cache[p], p)
      ensures old(store.files) == map[] ==> cache == store.files && Keyed(store.files) && Tidy(store.files)
    {
      hide NothingMissing, Reached;
      if [] !in store.files {
        NewStorageLoads(store.files);
      }
      if store.files == map[] {
        FirstStorage();
      }
      hide Keyed, Tidy, BaseLike;
      cache := map[];
      if [] !in store.files {
        store.InitBaseZnode();
      }
      var base := store.GetData([]);
      if !base.Ok? {
        return false;
      }
      cache := cache[[] := base.value];
      var sessions := store.GetData([SESSION_DIR]);
      if !sessions.Ok? {
        return false;
      }
      cache := cache[[SESSION_DIR] := sessions.value];
      ok := PopulateLayer([]);
      if !ok {
        return;
      }
      ok := PopulateLayer([SESSION_DIR]);
      if !ok {
        return;
      }
      initialised := true;
    }

    // ---- Checks ----

    method CheckCreate(z: ZNode) returns (r: Result<ZNode>)
      modifies this`cache
      ensures (r, cache) == Znodes.CheckCreate(old(cache), z)
    {
      if z.path in cache {
        return Err(ExistsError);
      }
      var parentPath := Dir(z.path);
      if parentPath !in cache {
        return Err(ExistsError);
      }
      if cache[parentPath].ephemeral != "" {
        return Err(InvalidRequestError);
      }
      if z.version != 0 {
        return Err(VersionError);
      }
      if z.ephemeral != "" {
        var p := SessionPath(z.ephemeral);
        if p !in cache {
          return Err(ExistsError);
        }
        if !cache[p].data.SessionData? {
          return Err(CriticalError);
        }
        var owned := cache[p].data.session;
        cache := cache[p := cache[p].(version := cache[p].version + 1,
                                      data := SessionData(owned.(ephemerals := owned.ephemerals + [z.path])))];
      }
      var made := z.(version := z.version + 1);
      cache := cache[z.path := made];
      cache := cache[parentPath := cache[parentPath].(children := cache[parentPath].children + [Base(z.path)])];
      return Ok(made);
    }

    method CheckUpdate(z: ZNode) returns (r: Result<ZNode>)
      modifies this`cache
      ensures (r, cache) == Znodes.CheckUpdate(old(cache), z)
    {
      if z.path !in cache {
        return Err(ExistsError);
      }
      var updated := z;
      if z.version != -1 {
        if z.version != cache[z.path].version {
          return Err(VersionError);
        }
        updated := z.(version := z.version + 1);
        cache := cache[z.path := cache[z.path].(version := cache[z.path].version + 1)];
      }
      cache := cache[z.path := cache[z.path].(data := z.data)];
      assert cache == old(cache)[z.path := cache[z.path]];
      return Ok(updated);
    }

    /** Unlists a path from its parent and forgets it. */
    method Unlist(p: Path) returns (r: Result<()>)
      modifies this`cache
      ensures Dir(p) in old(cache) ==> r == Ok(()) && cache == Unlisted(old(cache), p)
      ensures Dir(p) !in old(cache) ==> r == Panic && cache == old(cache)
    {
      var parentPath := Dir(p);
      if parentPath !in cache {
        return Panic;
      }
      var children := RemoveChild(cache[parentPath].children, Base(p));
      cache := cache[parentPath := cache[parentPath].(children := children)];
      cache := cache - {p};
      return Ok(());
    }

    method CheckDelete(z: ZNode) returns (r: Result<()>)
      modifies this`cache
      ensures (r, cache) == Znodes.CheckDelete(old(cache), z)
    {
      if z.path !in cache {
        return Err(ExistsError);
      }
      if z.version != -1 {
        if z.version != cache[z.path].version {
          return Err(VersionError);
        }
      }
      r := Unlist(z.path);
    }

    method CheckDeleteSession(z: ZNode) returns (r: Result<()>)
      modifies this`cache
      ensures (r, cache) == Znodes.CheckDeleteSession(old(cache), store.files, z)
    {
      var session := store.GetData(z.path);
      if !session.Ok? {
        return Err(ExistsError);
      }
      if !session.value.data.SessionData? {
        return Err(CriticalError);
      }
      var owned := session.value.data.session.ephemerals;
      hide Unlisted;
      for i := 0 to |owned|
        invariant UnlistAll(cache, owned[i..]) == UnlistAll(old(cache), owned)
      {
        assert owned[i..][1..] == owned[i + 1..];
        var d := Unlist(owned[i]);
        if d.Panic? {
          return Panic;
        }
      }
      assert owned[|owned|..] == [];
      cache := cache - {z.path};
      return Ok(());
    }

    method CheckUpdates(zs: seq<ZNode>) returns (r: Result<seq<ZNode>>)
      modifies this`cache
      ensures (r, cache) == Znodes.CheckUpdates(old(cache), zs)
    {
      hide Znodes.CheckUpdate;
      var updated: seq<ZNode> := [];
      ghost var all := Znodes.CheckUpdates(cache, zs);
      assert all.0.Ok? ==> [] + all.0.value == all.0.value;
      for i := 0 to |zs|
        invariant Earlier(updated, Znodes.CheckUpdates(cache, zs[i..])) == all
      {
        assert zs[i..][1..] == zs[i + 1..];
        ghost var c := cache;
        var u := CheckUpdate(zs[i]);
        match u {
          case Err(e) => return Err(e);
          case Panic => return Panic;
          case Ok(z) =>
            OneUpdateDone(updated, c, zs[i..]);
            updated := updated + [z];
        }
      }
      assert zs[|zs|..] == [];
      assert updated + [] == updated;
      return Ok(updated);
    }

    /** Decides on a request, updating the cache as if it were already applied. */
    method Check(req: WriteRequest) returns (r: Result<WriteRequest>)
      modifies this`cache
      ensures if initialised then (r, cache) == Znodes.Check(old(cache), store.files, req)
              else r == Err(InitError) && cache == old(cache)
    {
      hide Znodes.CheckCreate, Znodes.CheckUpdate, Znodes.CheckDelete, Znodes.CheckDeleteSession, Znodes.CheckUpdates;
      hide Dir, Base, SeqNames.NextName;
      if !initialised {
        return Err(InitError);
      }
      match req.kind {
        case Create =>
          if req.znodes == [] {
            return Panic;
          }
          var z := req.znodes[0];
          if z.sequential {
            if Dir(z.path) !in cache {
              return Panic;
            }
            var name := SeqNames.SeqName(cache[Dir(z.path)].children, Base(z.path));
            z := z.(path := Dir(z.path) + [name]);
          }
          var made := CheckCreate(z);
          match made {
            case Ok(m) => return Ok(WriteRequest(Create, req.znodes[0 := m]));
            case Err(e) => return Err(e);
            case Panic => return Panic;
          }
        case SetData =>
          if req.znodes == [] {
            return Panic;
          }
          var updated := CheckUpdate(req.znodes[0]);
          match updated {
            case Ok(u) => return Ok(WriteRequest(SetData, [u]));
            case Err(e) => return Err(e);
            case Panic => return Panic;
          }
        case Delete =>
          if req.znodes == [] {
            return Panic;
          }
          var d := CheckDelete(req.znodes[0]);
          return Passed(d, req);
        case DeleteSession =>
          if req.znodes == [] {
            return Panic;
          }
          var d := CheckDeleteSession(req.znodes[0]);
          return Passed(d, req);
        case Sync => return Ok(req);
        case WatchTrigger =>
          var updated := CheckUpdates(req.znodes);
          match updated {
            case Ok(zs) => return Ok(WriteRequest(WatchTrigger, zs));
            case Err(e) => return Err(e);
            case Panic => return Panic;
          }
        case Unknown => return Err(InvalidRequestError);
      }
    }
  }

  lemma GapIfAbsent(s: Tree, p: Path)
    requires p !in s
    ensures !NothingMissing(s, p)
  {
  }

  lemma MergeAgain(a: Tree, b: Tree, p: Path, n: ZNode, d: Tree)
    ensures a + (b + map[p := n] + d) == (a + b)[p := n] + d
  {
  }
}
