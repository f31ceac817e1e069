/** The life of a session: which ephemeral znodes it names while it lasts, and what ending it removes
    from the leader's cache and from storage. */
module Sessions {
  import opened Znodes
  import opened ZnodeAgreement
  import opened ZnodeRuns
  import opened ZnodeTrees
  import opened ZnodeInvariants

  predicate HasSession(t: Tree, id: string) {
    SessionPath(id) in t && t[SessionPath(id)].data.SessionData?
  }

  /** The ephemeral znodes that a session names. */
  function EphemeralsOf(t: Tree, id: string): seq<Path>
    requires HasSession(t, id)
  {
    t[SessionPath(id)].data.session.ephemerals
  }

  /** The znodes that belong to a session. */
  function Owned(t: Tree, id: string): set<Path> {
    set p | p in t && t[p].ephemeral == id
  }

  /** The request leaves the session's list of ephemeral znodes to the creates: it does not delete the
      session's znode, and where it updates it, it repeats the list. */
  ghost predicate Spares(c: Tree, req: WriteRequest, id: string)
    requires HasSession(c, id)
  {
    match req.kind
    case SetData => req.znodes != [] ==> Repeats(req.znodes[0], id, EphemeralsOf(c, id))
    case WatchTrigger => AllRepeat(req.znodes, id, EphemeralsOf(c, id))
    case Delete => req.znodes != [] ==> req.znodes[0].path != SessionPath(id)
    case _ => true
  }

  predicate Repeats(z: ZNode, id: string, names: seq<Path>) {
    z.path == SessionPath(id) ==> z.data.SessionData? && z.data.session.ephemerals == names
  }

  predicate AllRepeat(zs: seq<ZNode>, id: string, names: seq<Path>) {
    forall j :: 0 <= j < |zs| ==> Repeats(zs[j], id, names)
  }

  // ---- What an accepted request does to it ----

  /** The znode that a proposed request creates under the session, if it creates one. */
  function CreatedBy(req: WriteRequest, id: string): seq<Path> {
    if req.kind == Create && req.znodes != [] && req.znodes[0].ephemeral == id then [req.znodes[0].path] else []
  }

  /** The session's znodes after a proposed request. */
  function AliveAfter(alive: set<Path>, req: WriteRequest, id: string): set<Path> {
    match req.kind
    case Create => if CreatedBy(req, id) == [] then alive else alive + {req.znodes[0].path}
    case Delete => if req.znodes == [] then alive else alive - {req.znodes[0].path}
    case _ => alive
  }

  /** How one request changes what belongs to the session. */
  ghost predicate Reflects(c: Tree, r: Result<WriteRequest>, c': Tree, id: string) {
    && HasSession(c, id) && HasSession(c', id)
    && (r.Ok? ==> EphemeralsOf(c', id) == EphemeralsOf(c, id) + CreatedBy(r.value, id) && Owned(c', id) == AliveAfter(Owned(c, id), r.value, id))
    && (!r.Ok? ==> EphemeralsOf(c', id) == EphemeralsOf(c, id) && Owned(c', id) == Owned(c, id))
  }

  lemma CreateFollows(c: Tree, z: ZNode, id: string)
    requires HasSession(c, id) && id != "" && CheckCreate(c, z).0.Ok?
    ensures var (r, c') := CheckCreate(c, z);
            && r.value.path == z.path && r.value.ephemeral == z.ephemeral && HasSession(c', id)
            && EphemeralsOf(c', id) == EphemeralsOf(c, id) + (if z.ephemeral == id then [z.path] else [])
            && Owned(c', id) == Owned(c, id) + (if z.ephemeral == id then {z.path} else {})
            && c'[SessionPath(id)].version == c[SessionPath(id)].version + (if z.ephemeral == id then 1 else 0)
  {
    hide Dir, Base;
    var (r, c') := CheckCreate(c, z);
    assert EphemeralsOf(c, id) + [] == EphemeralsOf(c, id);
    assert SessionPath(z.ephemeral) == SessionPath(id) <==> z.ephemeral == id by { SessionPathsDiffer(z.ephemeral, id); }
  }

  lemma SessionPathsDiffer(a: string, b: string)
    ensures SessionPath(a) == SessionPath(b) <==> a == b
  {
    assert SessionPath(a)[1] == a && SessionPath(b)[1] == b;
  }

  lemma UpdateFollows(c: Tree, z: ZNode, id: string)
    requires HasSession(c, id) && Repeats(z, id, EphemeralsOf(c, id))
    ensures var c' := CheckUpdate(c, z).1;
            HasSession(c', id) && EphemeralsOf(c', id) == EphemeralsOf(c, id) && Owned(c', id) == Owned(c, id)
  {
  }

  lemma {:induction false} UpdatesFollow(c: Tree, zs: seq<ZNode>, id: string)
    requires HasSession(c, id) && AllRepeat(zs, id, EphemeralsOf(c, id))
    ensures var c' := CheckUpdates(c, zs).1;
            HasSession(c', id) && EphemeralsOf(c', id) == EphemeralsOf(c, id) && Owned(c', id) == Owned(c, id)
    decreases |zs|
  {
    hide CheckUpdate, HasSession, Owned, Repeats, EphemeralsOf;
    if zs != [] {
      UpdateFollows(c, zs[0], id);
      var c1 := CheckUpdate(c, zs[0]).1;
      assert AllRepeat(zs[1..], id, EphemeralsOf(c1, id));
      UpdatesFollow(c1, zs[1..], id);
    }
  }

  lemma DeleteFollows(c: Tree, z: ZNode, id: string)
    requires HasSession(c, id) && z.path != SessionPath(id) && CheckDelete(c, z).0.Ok?
    ensures var c' := CheckDelete(c, z).1;
            HasSession(c', id) && EphemeralsOf(c', id) == EphemeralsOf(c, id) && Owned(c', id) == Owned(c, id) - {z.path}
  {
    hide Dir, Base, Without;
  }

  /** Every orderly request that spares the session's list, accepted or not. */
  lemma CheckFollows(c: Tree, a: Arrival, id: string)
    requires HasSession(c, id) && id != "" && Orderly(c, a) && Spares(c, a.req, id)
    ensures Reflects(c, Check(c, a.storage, a.req).0, Check(c, a.storage, a.req).1, id)
  {
    hide CheckCreate, CheckUpdate, CheckUpdates, CheckDelete, SequentialPath, HasSession, EphemeralsOf, Owned, Repeats, AllRepeat;
    hide Traceless, Made, Leaf;
    var (r, c') := Check(c, a.storage, a.req);
    assert EphemeralsOf(c, id) + [] == EphemeralsOf(c, id);
    if r.Ok? {
      match a.req.kind
      case Create =>
        var z := a.req.znodes[0];
        CreateFollows(c, if z.sequential then z.(path := SequentialPath(c, z.path)) else z, id);
      case SetData => UpdateFollows(c, a.req.znodes[0], id);
      case WatchTrigger => UpdatesFollow(c, a.req.znodes, id);
      case Delete => DeleteFollows(c, a.req.znodes[0], id);
      case Unknown =>
    } else {
      OrderlyRefusal(c, a);
    }
  }

  // ---- Over a run ----

  function CreatedUnder(log: seq<WriteRequest>, id: string): seq<Path> {
    if log == [] then [] else CreatedUnder(log[..|log| - 1], id) + CreatedBy(log[|log| - 1], id)
  }

  function AliveUnder(alive: set<Path>, log: seq<WriteRequest>, id: string): set<Path> {
    if log == [] then alive else AliveAfter(AliveUnder(alive, log[..|log| - 1], id), log[|log| - 1], id)
  }

  ghost predicate AllSpare(s: Tree, run: seq<Arrival>, id: string)
    decreases |run|
  {
    HasSession(HandleAll(Leader(s, []), run).cache, id) &&
    (run != [] ==>
      var init := run[..|run| - 1];
      AllSpare(s, init, id) && Spares(HandleAll(Leader(s, []), init).cache, run[|run| - 1].req, id))
  }

  /** Over any such run, in the cache and on a replica that has applied the accepted requests, the
      session names what it named at first and exactly the znodes created under it since, in order;
      those that belong to it in the cache are the created ones that were not deleted again. */
  lemma {:induction false} SessionOverRun(s: Tree, run: seq<Arrival>, id: string)
    requires id != "" && Keyed(s) && AllOrderly(Leader(s, []), run) && AllSpare(s, run, id) && HasSession(s, id)
    ensures var l := HandleAll(Leader(s, []), run);
            && HasSession(l.cache, id) && EphemeralsOf(l.cache, id) == EphemeralsOf(s, id) + CreatedUnder(l.log, id)
            && Owned(l.cache, id) == AliveUnder(Owned(s, id), l.log, id)
            && Replay(s, l.log).Ok? && HasSession(Replay(s, l.log).value, id)
            && EphemeralsOf(Replay(s, l.log).value, id) == EphemeralsOf(l.cache, id)
    decreases |run|
  {
    hide Keyed, Orderly, Spares, Check, Owned, AliveAfter, CreatedBy, Replay, HasSession, EphemeralsOf;
    var l := HandleAll(Leader(s, []), run);
    CacheIsReplay(s, run);
    SameSession(l.cache, Replay(s, l.log).value, AllNameVersions(run), id);
    if run == [] {
      assert EphemeralsOf(s, id) + [] == EphemeralsOf(s, id);
    } else {
      var init, a := run[..|run| - 1], run[|run| - 1];
      SessionOverRun(s, init, id);
      var before := HandleAll(Leader(s, []), init);
      CheckFollows(before.cache, a, id);
      OneMoreInLog(before, a, EphemeralsOf(s, id), Owned(s, id), id);
    }
  }

  lemma SameSession(c: Tree, s: Tree, versions: bool, id: string)
    requires Alike(c, s, versions) && HasSession(c, id)
    ensures HasSession(s, id) && EphemeralsOf(s, id) == EphemeralsOf(c, id)
  {
    assert AlikeAt(c[SessionPath(id)], s[SessionPath(id)], versions);
  }

  lemma OneMoreInLog(l: Leader, a: Arrival, names: seq<Path>, owned: set<Path>, id: string)
    requires var (r, c') := Check(l.cache, a.storage, a.req); Reflects(l.cache, r, c', id)
    requires EphemeralsOf(l.cache, id) == names + CreatedUnder(l.log, id) && Owned(l.cache, id) == AliveUnder(owned, l.log, id)
    ensures var l' := Handle(l, a);
            && HasSession(l'.cache, id) && EphemeralsOf(l'.cache, id) == names + CreatedUnder(l'.log, id)
            && Owned(l'.cache, id) == AliveUnder(owned, l'.log, id)
  {
    hide Check, Owned, AliveAfter, CreatedBy, EphemeralsOf, HasSession;
    var r := Check(l.cache, a.storage, a.req).0;
    if r.Ok? {
      var log := l.log + [r.value];
      assert log[..|log| - 1] == l.log;
      assert names + (CreatedUnder(l.log, id) + CreatedBy(r.value, id)) == names + CreatedUnder(l.log, id) + CreatedBy(r.value, id);
    }
  }

  // ---- Ending a session: the cache ----

  lemma {:induction false} UnlistedAll(c: Tree, paths: seq<Path>)
    requires UnlistAll(c, paths).0.Ok?
    ensures var c' := UnlistAll(c, paths).1;
            && (forall p :: p in c' <==> p in c && p !in paths)
            && (forall p :: p in c' ==> c'[p] == c[p].(children := c'[p].children))
    decreases |paths|
  {
    hide Dir, Base, Without;
    if paths != [] {
      UnlistedAll(Unlisted(c, paths[0]), paths[1..]);
      assert paths == [paths[0]] + paths[1..];
    }
  }

  /** An accepted end forgets the session and exactly the znodes that it names in the leader's storage. */
  lemma CheckEnds(c: Tree, storage: Tree, z: ZNode)
    requires CheckDeleteSession(c, storage, z).0.Ok?
    ensures z.path in storage && storage[z.path].data.SessionData?
    ensures var c' := CheckDeleteSession(c, storage, z).1;
            && (forall p :: p in c' <==> p in c && p != z.path && p !in storage[z.path].data.session.ephemerals)
            && (forall p :: p in c' ==> c'[p] == c[p].(children := c'[p].children))
  {
    UnlistedAll(c, storage[z.path].data.session.ephemerals);
    hide UnlistAll;
  }

  // ---- Ending a session: storage ----

  predicate AtOrBelow(p: Path, q: Path) {
    p == q || Below(p, q)
  }

  /** Every znode is stored at its own path, under a stored parent. */
  ghost predicate Connected(s: Tree) {
    (forall p :: p in s ==> s[p].path == p) && forall p :: p in s && p != [] ==> Dir(p) in s
  }

  /** Deleting the paths one by one finds each of them: they are all there, none at or below an earlier
      one. */
  ghost predicate Deletable(s: Tree, paths: seq<Path>) {
    && (forall i :: 0 <= i < |paths| ==> paths[i] in s && paths[i] != [])
    && (forall i, j :: 0 <= i < j < |paths| ==> !AtOrBelow(paths[i], paths[j]))
  }

  ghost predicate Covered(paths: seq<Path>, q: Path) {
    exists i :: 0 <= i < |paths| && AtOrBelow(paths[i], q)
  }

  /** One deletion: everything at or below the path goes, everything else stays, apart from what the
      parent lists. */
  lemma DeletedOne(s: Tree, p: Path)
    requires Connected(s) && p != [] && Dir(p) in s
    ensures var (r, s') := DeleteOp(s, p);
            && r.Ok? && Connected(s')
            && (forall q :: q in s' <==> q in s && !AtOrBelow(p, q))
            && (forall q :: q in s' ==> s'[q] == s[q].(children := s'[q].children))
  {
    var par := s[Dir(p)];
    BelowDir(p);
    var s' := DeleteOp(s, p).1;
    assert par.path == Dir(p) && Dir(p) != p;
    forall q | q in s' && q != [] ensures Dir(q) in s' {
      BelowDir(q);
      assert Dir(q) in s;
      if AtOrBelow(p, Dir(q)) { BelowBelow(p, q); }
    }
    hide Dir, Base, Without;
  }

  lemma BelowDir(p: Path)
    requires p != []
    ensures Below(Dir(p), p) && !AtOrBelow(p, Dir(p))
  {
  }

  lemma BelowBelow(p: Path, q: Path)
    requires q != [] && AtOrBelow(p, Dir(q))
    ensures Below(p, q)
  {
  }

  lemma {:induction false} DeletedAll(s: Tree, paths: seq<Path>)
    requires Connected(s) && forall i :: 0 <= i < |paths| ==> paths[i] != []
    ensures DeleteAll(s, paths).0.Ok? <==> Deletable(s, paths)
    ensures var (r, s') := DeleteAll(s, paths);
            r.Ok? ==>
              && Connected(s') && (forall q :: q in s' <==> q in s && !Covered(paths, q))
              && (forall q :: q in s' ==> s'[q] == s[q].(children := s'[q].children))
    decreases |paths|
  {
    if paths != [] {
      var p, rest := paths[0], paths[1..];
      if p in s {
        DeletedOne(s, p);
        var s1 := DeleteOp(s, p).1;
        DeletedAll(s1, rest);
        DeletableHead(s, s1, paths);
        CoveredHead(paths);
        hide DeleteOp, Connected, Deletable, Covered, AtOrBelow;
        assert s[p].path == p by { ConnectedPath(s, p); }
      } else {
        assert !Deletable(s, paths);
      }
    }
  }

  lemma ConnectedPath(s: Tree, p: Path)
    requires Connected(s) && p in s
    ensures s[p].path == p
  {
  }

  lemma DeletableHead(s: Tree, s1: Tree, paths: seq<Path>)
    requires paths != [] && paths[0] in s && forall i :: 0 <= i < |paths| ==> paths[i] != []
    requires forall q :: q in s1 <==> q in s && !AtOrBelow(paths[0], q)
    ensures Deletable(s, paths) <==> Deletable(s1, paths[1..])
  {
    hide AtOrBelow;
    var p, rest := paths[0], paths[1..];
    assert forall i :: 0 <= i < |rest| ==> rest[i] == paths[i + 1];
    if Deletable(s1, rest) {
      forall i, j | 0 <= i < j < |paths| ensures !AtOrBelow(paths[i], paths[j]) {
        if i == 0 { assert rest[j - 1] in s1; } else { assert !AtOrBelow(rest[i - 1], rest[j - 1]); }
      }
      forall i | 0 <= i < |paths| ensures paths[i] in s { if i > 0 { assert rest[i - 1] in s1; } }
    }
    if Deletable(s, paths) {
      forall i | 0 <= i < |rest| ensures rest[i] in s1 { assert !AtOrBelow(paths[0], paths[i + 1]); }
    }
  }

  lemma CoveredHead(paths: seq<Path>)
    requires paths != []
    ensures forall q :: Covered(paths, q) <==> AtOrBelow(paths[0], q) || Covered(paths[1..], q)
  {
    hide AtOrBelow;
    forall q ensures Covered(paths, q) <==> AtOrBelow(paths[0], q) || Covered(paths[1..], q) {
      if i :| 0 <= i < |paths[1..]| && AtOrBelow(paths[1..][i], q) { assert AtOrBelow(paths[i + 1], q); }
      if i :| 0 <= i < |paths| && AtOrBelow(paths[i], q) && i > 0 { assert AtOrBelow(paths[1..][i - 1], q); }
    }
  }

  /** The end of a session succeeds on a replica exactly if every znode it names is still there and has
      not gone with an earlier one, nor the session directory with any; then exactly these, the session
      and what is below them are gone. */
  lemma WriteEnds(s: Tree, z: ZNode)
    requires Connected(s) && z.path in s && z.path != [] && s[z.path].data.SessionData?
    requires forall i :: 0 <= i < |s[z.path].data.session.ephemerals| ==> s[z.path].data.session.ephemerals[i] != []
    ensures var names := s[z.path].data.session.ephemerals;
            var (r, s') := Write(s, WriteRequest(DeleteSession, [z]));
            && (r.Ok? <==> Deletable(s, names) && !Covered(names, Dir(z.path)))
            && (r.Ok? ==>
                 && r.value == names && Connected(s')
                 && (forall q :: q in s' <==> q in s && !Covered(names, q) && !AtOrBelow(z.path, q))
                 && (forall q :: q in s' ==> s'[q] == s[q].(children := s'[q].children)))
  {
    hide Connected, Deletable, Covered, AtOrBelow, DeleteAll, DeleteOp, Dir;
    var names := s[z.path].data.session.ephemerals;
    DeletedAll(s, names);
    ParentThere(s, z.path);
    if DeleteAll(s, names).0.Ok? {
      var s1 := DeleteAll(s, names).1;
      if Dir(z.path) in s1 { DeletedOne(s1, z.path); } else { NothingLost(s1, z.path); }
    }
  }

  lemma ParentThere(s: Tree, p: Path)
    requires Connected(s) && p in s && p != []
    ensures Dir(p) in s
  {
  }

  // ---- An end that fails ----

  /** What is left when these paths are deleted, one by one. */
  ghost predicate LeftAfter(s: Tree, s': Tree, paths: seq<Path>) {
    && Connected(s') && Deletable(s, paths) && (forall q :: q in s' <==> q in s && !Covered(paths, q))
    && (forall q :: q in s' ==> s'[q] == s[q].(children := s'[q].children))
  }

  /** Deleting stops at a path that is not there (any more), after those before it. */
  ghost predicate StopsAt(s: Tree, s': Tree, paths: seq<Path>, k: nat) {
    k < |paths| && LeftAfter(s, s', paths[..k]) && paths[k] !in s'
  }

  lemma {:induction false} DeletedUntil(s: Tree, paths: seq<Path>)
    requires Connected(s) && (forall i :: 0 <= i < |paths| ==> paths[i] != []) && !DeleteAll(s, paths).0.Ok?
    ensures DeleteAll(s, paths).0 == Err(ExistsError) && exists k: nat :: StopsAt(s, DeleteAll(s, paths).1, paths, k)
    decreases |paths|
  {
    hide DeleteOp, Connected, Deletable, Covered, AtOrBelow, StopsAt;
    var p, rest := paths[0], paths[1..];
    if p in s {
      ConnectedPath(s, p);
      ParentThere(s, p);
      DeletedOne(s, p);
      var s1 := DeleteOp(s, p).1;
      DeletedUntil(s1, rest);
      var k: nat :| StopsAt(s1, DeleteAll(s1, rest).1, rest, k);
      StopsLater(s, s1, DeleteAll(s1, rest).1, paths, k);
    } else {
      assert StopsAt(s, s, paths, 0) by { NothingDeleted(s, paths); }
    }
  }

  lemma NothingDeleted(s: Tree, paths: seq<Path>)
    requires Connected(s) && paths != [] && paths[0] !in s
    ensures StopsAt(s, s, paths, 0)
  {
    hide Connected;
  }

  lemma StopsLater(s: Tree, s1: Tree, s': Tree, paths: seq<Path>, k: nat)
    requires paths != [] && paths[0] in s && (forall i :: 0 <= i < |paths| ==> paths[i] != []) && StopsAt(s1, s', paths[1..], k)
    requires forall q :: q in s1 <==> q in s && !AtOrBelow(paths[0], q)
    requires forall q :: q in s1 ==> s1[q] == s[q].(children := s1[q].children)
    ensures StopsAt(s, s', paths, k + 1)
  {
    hide Connected, Deletable, Covered, AtOrBelow;
    assert paths[..k + 1][1..] == paths[1..][..k];
    DeletableHead(s, s1, paths[..k + 1]);
    CoveredHead(paths[..k + 1]);
  }

  /** A session's end that fails on a replica has deleted what the session names up to the first znode
      that is missing; everything else, the session included, stays unless it was below one of these. */
  lemma FailedEndLeaves(s: Tree, z: ZNode)
    requires Connected(s) && z.path in s && z.path != [] && s[z.path].data.SessionData?
    requires forall i :: 0 <= i < |s[z.path].data.session.ephemerals| ==> s[z.path].data.session.ephemerals[i] != []
    requires !Write(s, WriteRequest(DeleteSession, [z])).0.Ok?
    ensures var names := s[z.path].data.session.ephemerals;
            var (r, s') := Write(s, WriteRequest(DeleteSession, [z]));
            && r == Err(ExistsError)
            && ((exists k: nat :: StopsAt(s, s', names, k)) || (LeftAfter(s, s', names) && Dir(z.path) !in s'))
  {
    hide Connected, Deletable, Covered, AtOrBelow, DeleteAll, DeleteOp, Dir, StopsAt;
    var names := s[z.path].data.session.ephemerals;
    if DeleteAll(s, names).0.Ok? {
      DeletedAll(s, names);
      var s1 := DeleteAll(s, names).1;
      if Dir(z.path) in s1 { DeletedOne(s1, z.path); } else { NothingLost(s1, z.path); }
    } else {
      DeletedUntil(s, names);
    }
  }

  lemma NothingLost(s: Tree, p: Path)
    requires Dir(p) !in s
    ensures DeleteOp(s, p) == (Err(ExistsError), s)
  {
    hide Dir;
  }

  // ---- Cache and storage at the end of a session ----

  /** Nothing is stored below the session or a znode it names. */
  ghost predicate Leaves(s: Tree, names: seq<Path>, q: Path) {
    forall p, x :: (p == q || p in names) && x in s ==> !Below(p, x)
  }

  /** If the leader's storage has caught up with the session's list, an accepted end leaves cache and
      storage alike, without the session and exactly the znodes it named, whenever these are childless,
      all there and named once. */
  lemma SessionEnds(c: Tree, storage: Tree, s: Tree, versions: bool, z: ZNode)
    requires Alike(c, s, versions) && Connected(s) && z.path in s && z.path != [] && s[z.path].data.SessionData?
    requires z.path in storage && storage[z.path].data == s[z.path].data
    requires var names := s[z.path].data.session.ephemerals;
             Deletable(s, names) && Leaves(s, names, z.path) && !Covered(names, Dir(z.path))
    requires Check(c, storage, WriteRequest(DeleteSession, [z])).0.Ok?
    ensures var names := s[z.path].data.session.ephemerals;
            var (r, c') := Check(c, storage, WriteRequest(DeleteSession, [z]));
            var (w, s') := Write(s, r.value);
            && w == Ok(names) && Connected(s') && Alike(c', s', versions)
            && c'.Keys == c.Keys - {z.path} - (set p | p in names)
  {
    var names := s[z.path].data.session.ephemerals;
    EndInCache(c, storage, z);
    hide *;
    assert forall i :: 0 <= i < |names| ==> names[i] != [] by { NoneIsRoot(s, names); }
    WriteEnds(s, z);
    CoveredIsNamed(s, names, z.path);
    BothWithout(c, s, versions, Check(c, storage, WriteRequest(DeleteSession, [z])).1,
                Write(s, WriteRequest(DeleteSession, [z])).1, names, z.path);
  }

  lemma NoneIsRoot(s: Tree, names: seq<Path>)
    requires Deletable(s, names)
    ensures forall i :: 0 <= i < |names| ==> names[i] != []
  {
  }

  lemma EndInCache(c: Tree, storage: Tree, z: ZNode)
    requires Check(c, storage, WriteRequest(DeleteSession, [z])).0.Ok?
    ensures z.path in storage && storage[z.path].data.SessionData?
    ensures var (r, c') := Check(c, storage, WriteRequest(DeleteSession, [z]));
            && r.value == WriteRequest(DeleteSession, [z])
            && (forall p :: p in c' <==> p in c && p != z.path && p !in storage[z.path].data.session.ephemerals)
            && (forall p :: p in c' ==> c'[p] == c[p].(children := c'[p].children))
  {
    hide CheckDeleteSession;
    CheckEnds(c, storage, z);
  }

  lemma BothWithout(c: Tree, s: Tree, versions: bool, c': Tree, s': Tree, names: seq<Path>, q: Path)
    requires Alike(c, s, versions)
    requires forall p :: p in c' <==> p in c && p != q && p !in names
    requires forall p :: p in s' <==> p in s && !Covered(names, p) && !AtOrBelow(q, p)
    requires forall p :: p in c' ==> c'[p] == c[p].(children := c'[p].children)
    requires forall p :: p in s' ==> s'[p] == s[p].(children := s'[p].children)
    requires forall p :: p in s ==> (Covered(names, p) <==> p in names) && (AtOrBelow(q, p) <==> p == q)
    ensures Alike(c', s', versions) && c'.Keys == c.Keys - {q} - (set p | p in names)
  {
    hide Covered, AtOrBelow;
    assert forall p :: p in c <==> p in s by { AlikeKeys(c, s, versions); }
    assert c'.Keys == s'.Keys;
    forall p | p in c' ensures AlikeAt(c'[p], s'[p], versions) { assert AlikeAt(c[p], s[p], versions); }
  }

  lemma CoveredIsNamed(s: Tree, names: seq<Path>, q: Path)
    requires Leaves(s, names, q)
    ensures forall x :: x in s ==> (Covered(names, x) <==> x in names) && (AtOrBelow(q, x) <==> x == q)
  {
    hide Below;
    forall x | x in s ensures Covered(names, x) <==> x in names {
      if x in names {
        var i :| 0 <= i < |names| && names[i] == x;
        assert AtOrBelow(names[i], x);
      }
    }
  }

  /** A client's delete of one of its ephemeral znodes does not take it off the session's list: as long
      as every listed path has its parent in the cache the end of the session is accepted all the same,
      and then it fails on every replica. */
  lemma DeletedBeforeEnd(c: Tree, storage: Tree, s: Tree, z: ZNode, p: Path)
    requires Connected(s) && z.path in s && z.path != [] && s[z.path].data.SessionData?
    requires z.path in storage && storage[z.path].data == s[z.path].data
    requires var names := s[z.path].data.session.ephemerals;
             && p in names && p !in s && (forall i :: 0 <= i < |names| ==> names[i] != [])
             && forall i: nat :: i < |names| ==> !MissesParent(c, names, i)
    ensures Check(c, storage, WriteRequest(DeleteSession, [z])).0.Ok?
    ensures !Write(s, WriteRequest(DeleteSession, [z])).0.Ok?
  {
    var names, req := s[z.path].data.session.ephemerals, WriteRequest(DeleteSession, [z]);
    EndAccepted(c, storage, z);
    hide *;
    WriteEnds(s, z);
    NotAllThere(s, names, p);
  }

  lemma EndAccepted(c: Tree, storage: Tree, z: ZNode)
    requires z.path in storage && storage[z.path].data.SessionData?
    requires var names := storage[z.path].data.session.ephemerals; forall i: nat :: i < |names| ==> !MissesParent(c, names, i)
    ensures Check(c, storage, WriteRequest(DeleteSession, [z])).0.Ok?
  {
    hide UnlistAll, MissesParent;
    var names := storage[z.path].data.session.ephemerals;
    WhenUnlistPanics(c, names);
    UnlistAllNeverRefuses(c, names);
  }

  lemma NotAllThere(s: Tree, names: seq<Path>, p: Path)
    requires p in names && p !in s
    ensures !Deletable(s, names)
  {
    var i :| 0 <= i < |names| && names[i] == p;
    assert names[i] !in s;
  }

  // ---- A whole life ----

  /** A childless znode has nothing below it. */
  lemma {:induction false} NothingBelow(c: Tree, p: Path, x: Path)
    requires WellFormed(c) && p in c && p != [] && c[p].children == [] && x in c
    ensures !Below(p, x)
    decreases |x|
  {
    if Below(p, x) {
      assert HasParent(c, x);
      if Dir(x) != p { NothingBelow(c, p, Dir(x)); }
    }
  }

  predicate Distinct(names: seq<Path>) {
    forall i, j :: 0 <= i < j < |names| ==> names[i] != names[j]
  }

  /** The cache of a well-formed tree in which every znode that a session names belongs to it. */
  ghost predicate Complete(c: Tree, id: string) {
    && WellFormed(c) && id != "" && HasSession(c, id) && c[SessionPath(id)].children == [] && c[SessionPath(id)].ephemeral == ""
    && Distinct(EphemeralsOf(c, id)) && [] !in EphemeralsOf(c, id) && forall p <- EphemeralsOf(c, id) :: p in Owned(c, id)
  }

  /** The session and the znodes it names are leaves with a parent. */
  lemma CompleteParts(c: Tree, id: string, p: Path)
    requires Complete(c, id) && (p == SessionPath(id) || p in EphemeralsOf(c, id))
    ensures p in c && p != [] && Dir(p) in c && forall x :: x in c ==> !Below(p, x)
  {
    hide Dir, Base, Count;
    assert p in c && p != [] && c[p].children == [];
    assert HasParent(c, p);
    hide WellFormed, HasParent, HasSession, Owned, EphemeralsOf, Distinct;
    forall x | x in c ensures !Below(p, x) { NothingBelow(c, p, x); }
  }

  lemma CompleteIsDeletable(c: Tree, s: Tree, id: string)
    requires Complete(c, id) && c.Keys == s.Keys
    ensures var names := EphemeralsOf(c, id);
            && Deletable(s, names) && Leaves(s, names, SessionPath(id)) && !Covered(names, Dir(SessionPath(id)))
            && forall i: nat :: i < |names| ==> !MissesParent(c, names, i)
  {
    var names, q := EphemeralsOf(c, id), SessionPath(id);
    assert forall x: Path :: x in c <==> x in s;
    assert Distinct(names);
    hide Complete, Below, Dir, EphemeralsOf;
    CompleteParts(c, id, q);
    forall p | p in names ensures p in c && p != [] && Dir(p) in c && forall x :: x in c ==> !Below(p, x) { CompleteParts(c, id, p); }
    LeavesAreDeletable(c, names);
    assert Deletable(s, names);
    forall i: nat | i < |names| ensures !MissesParent(c, names, i) { assert names[i] in names; ParentIsNoLeaf(c, names[i], names[..i]); }
    if i :| 0 <= i < |names| && AtOrBelow(names[i], Dir(q)) {
      assert names[i] in names;
      BelowDir(q);
    }
  }

  lemma LeavesAreDeletable(c: Tree, names: seq<Path>)
    requires Distinct(names) && forall p <- names :: p in c && p != [] && forall x :: x in c ==> !Below(p, x)
    ensures Deletable(c, names)
  {
    hide Below;
    forall i | 0 <= i < |names| ensures names[i] in c && names[i] != [] { assert names[i] in names; }
    forall i, j | 0 <= i < j < |names| ensures !AtOrBelow(names[i], names[j]) { assert names[i] in names && names[j] in names; }
  }

  lemma ParentIsNoLeaf(c: Tree, p: Path, names: seq<Path>)
    requires p in c && p != [] && forall e <- names :: forall x :: x in c ==> !Below(e, x)
    ensures Dir(p) !in names
  {
    BelowDir(p);
    hide Dir, Below;
  }

  lemma CompleteIsConnected(c: Tree, s: Tree, versions: bool)
    requires WellFormed(c) && Keyed(s) && Alike(c, s, versions)
    ensures Connected(s)
  {
    AlikeKeys(c, s, versions);
    forall p | p in s && p != [] ensures Dir(p) in s { assert HasParent(c, p); }
  }

  /** The life of a session: after any orderly run in which the znodes created under it were not deleted
      again, its end is accepted if the leader's storage has caught up with it, succeeds on a replica that has
      applied the log, and removes from the cache and from the replica the session and exactly the znodes
      created under it. */
  lemma LifeOfSession(s: Tree, run: seq<Arrival>, id: string, storage: Tree, z: ZNode)
    requires id != "" && Keyed(s) && WellFormed(s) && AllOrderly(Leader(s, []), run) && AllPlain(run) && AllSpare(s, run, id)
    requires HasSession(s, id) && EphemeralsOf(s, id) == [] && Owned(s, id) == {}
    requires var l := HandleAll(Leader(s, []), run);
             var names, q := CreatedUnder(l.log, id), SessionPath(id);
             && Distinct(names) && [] !in names && (forall p <- names :: p in AliveUnder({}, l.log, id))
             && q in l.cache && l.cache[q].children == [] && l.cache[q].ephemeral == ""
             && z.path == q && q in storage && storage[q].data == l.cache[q].data
    ensures var l := HandleAll(Leader(s, []), run);
            var t, req := Replay(s, l.log), WriteRequest(DeleteSession, [z]);
            && t.Ok? && Check(l.cache, storage, req).0 == Ok(req)
            && var (w, t') := Write(t.value, req);
              && w == Ok(CreatedUnder(l.log, id))
              && t'.Keys == Check(l.cache, storage, req).1.Keys
              && t'.Keys == t.value.Keys - {SessionPath(id)} - (set p | p in CreatedUnder(l.log, id))
  {
    var l := HandleAll(Leader(s, []), run);
    var names := CreatedUnder(l.log, id);
    assert [] + names == names;
    hide *;
    SessionOverRun(s, run, id);
    CacheIsReplay(s, run);
    RunKeepsTree(s, run);
    IsComplete(l.cache, id, names);
    EndOfLife(l.cache, storage, Replay(s, l.log).value, AllNameVersions(run), z, id);
  }

  lemma IsComplete(c: Tree, id: string, names: seq<Path>)
    requires WellFormed(c) && id != "" && HasSession(c, id) && c[SessionPath(id)].children == [] && c[SessionPath(id)].ephemeral == ""
    requires EphemeralsOf(c, id) == names && Distinct(names) && [] !in names && forall p <- names :: p in Owned(c, id)
    ensures Complete(c, id)
  {
    hide WellFormed, HasSession, Owned, EphemeralsOf;
  }

  lemma EndOfLife(c: Tree, storage: Tree, s: Tree, versions: bool, z: ZNode, id: string)
    requires Complete(c, id) && Alike(c, s, versions) && Keyed(s) && z.path == SessionPath(id)
    requires z.path in storage && z.path in c && storage[z.path].data == c[z.path].data && HasSession(c, id)
    ensures var req := WriteRequest(DeleteSession, [z]);
            && Check(c, storage, req).0 == Ok(req) && Write(s, req).0 == Ok(EphemeralsOf(c, id))
            && Write(s, req).1.Keys == Check(c, storage, req).1.Keys
            && Write(s, req).1.Keys == s.Keys - {SessionPath(id)} - (set p | p in EphemeralsOf(c, id))
  {
    var req := WriteRequest(DeleteSession, [z]);
    assert WellFormed(c) by { hide WellFormed; }
    SameSession(c, s, versions, id);
    SameSessionData(c, s, storage, versions, z, id);
    hide *;
    AlikeKeys(c, s, versions);
    CompleteIsDeletable(c, s, id);
    CompleteIsConnected(c, s, versions);
    EndAccepted(c, storage, z);
    SessionEnds(c, storage, s, versions, z);
    EndInCache(c, storage, z);
    AlikeKeys(Check(c, storage, req).1, Write(s, req).1, versions);
  }

  lemma SameSessionData(c: Tree, s: Tree, storage: Tree, versions: bool, z: ZNode, id: string)
    requires Alike(c, s, versions) && HasSession(c, id) && z.path == SessionPath(id)
    requires z.path in storage && storage[z.path].data == c[z.path].data
    ensures z.path in s && z.path != [] && s[z.path].data == c[z.path].data && s[z.path].data.SessionData?
    ensures s[z.path].data.session.ephemerals == EphemeralsOf(c, id)
  {
    assert AlikeAt(c[z.path], s[z.path], versions);
  }
}
