/** From a registered watch to its notice: what registering sends, which paths an applied request
    names, and what the check that follows it reports and updates. */
module Notices {
  import opened Znodes
  import opened ZnodeAgreement
  import opened ZnodeTrees
  import opened Watch

  // ---- The paths of an applied request ----

  /** The znodes that a request creates, replaces or deletes by name; the updates of a watch trigger
      are not named. */
  function NamedPaths(s: Tree, req: WriteRequest): seq<Path> {
    match req.kind
    case Create => if req.znodes == [] then [] else [req.znodes[0].path]
    case SetData => if req.znodes == [] then [] else [req.znodes[0].path]
    case Delete => if req.znodes == [] then [] else [req.znodes[0].path]
    case DeleteSession =>
      if req.znodes != [] && req.znodes[0].path in s && s[req.znodes[0].path].data.SessionData? then
        s[req.znodes[0].path].data.session.ephemerals
      else []
    case _ => []
  }

  /** `s'` has what the request names: created and replaced znodes as the request has them, deleted ones
      no more. */
  ghost predicate Took(s': Tree, req: WriteRequest, p: Path) {
    match req.kind
    case Create => p in s' && req.znodes != [] && s'[p] == req.znodes[0]
    case SetData => p in s' && req.znodes != [] && s'[p] == req.znodes[0]
    case _ => p !in s'
  }

  ghost predicate AtOwnPaths(s: Tree) {
    forall p :: p in s ==> s[p].path == p
  }

  /** A request that is applied returns exactly the paths it names, and has dealt with each. */
  lemma WriteReturnsPaths(s: Tree, req: WriteRequest)
    requires Write(s, req).0.Ok? && AtOwnPaths(s)
    ensures var (r, s') := Write(s, req);
            r.value == NamedPaths(s, req) && forall p <- r.value :: Took(s', req, p)
  {
    hide InitBase, Dir, Base, Removed, WriteAll, AtOwnPaths, DeleteOp, DeleteAll;
    match req.kind
    case Delete => OneDeleted(s, req.znodes[0].path);
    case DeleteSession =>
      var q := req.znodes[0].path;
      var paths := s[q].data.session.ephemerals;
      AllDeleted(s, paths);
      OneDeleted(DeleteAll(s, paths).1, q);
    case _ =>
  }

  /** A deleted path is gone, and nothing comes back. */
  lemma OneDeleted(s: Tree, q: Path)
    requires DeleteOp(s, q).0.Ok?
    ensures var s' := DeleteOp(s, q).1; q !in s' && s'.Keys <= s.Keys + {s[Dir(q)].path} && Dir(q) in s
    ensures AtOwnPaths(s) ==> AtOwnPaths(DeleteOp(s, q).1) && DeleteOp(s, q).1.Keys <= s.Keys
  {
    hide Dir, Base, Without;
  }

  lemma {:induction false} AllDeleted(s: Tree, paths: seq<Path>)
    requires AtOwnPaths(s) && DeleteAll(s, paths).0.Ok?
    ensures var s' := DeleteAll(s, paths).1; AtOwnPaths(s') && s'.Keys <= s.Keys && forall p <- paths :: p !in s'
    decreases |paths|
  {
    hide DeleteOp, AtOwnPaths;
    if paths != [] {
      assert s[paths[0]].path == paths[0] by { PathOfStored(s, paths[0]); }
      OneDeleted(s, paths[0]);
      AllDeleted(DeleteOp(s, paths[0]).1, paths[1..]);
      assert paths == [paths[0]] + paths[1..];
    }
  }

  lemma PathOfStored(s: Tree, p: Path)
    requires AtOwnPaths(s) && p in s
    ensures s[p].path == p
  {
  }

  /** When a request is applied, for every kind but the end of a session, and what it says otherwise. */
  lemma WhenApplied(s: Tree, req: WriteRequest)
    requires AtOwnPaths(s)
    ensures req.kind != DeleteSession ==>
      (Write(s, req).0.Ok? <==>
       match req.kind
       case Create =>
         req.znodes != [] &&
         var z := req.znodes[0];
         && (Dir(z.path) in s || ([] !in s && (Dir(z.path) == [] || Dir(z.path) == [SESSION_DIR])))
         && (z.ephemeral != "" ==> SessionPath(z.ephemeral) in s && s[SessionPath(z.ephemeral)].data.SessionData?)
       case SetData => req.znodes != []
       case Delete => req.znodes != [] && Dir(req.znodes[0].path) in s
       case WatchTrigger => true
       case _ => false)
    ensures req.kind == DeleteSession && req.znodes != [] ==>
      var q := req.znodes[0].path;
      && (q !in s ==> Write(s, req) == (Err(ExistsError), s))
      && (q in s && !s[q].data.SessionData? ==> Write(s, req) == (Err(CriticalError), s))
    ensures Write(s, req).0.Panic? <==>
      req.znodes == [] && (req.kind == Create || req.kind == SetData || req.kind == Delete || req.kind == DeleteSession)
    ensures req.kind == Sync || req.kind == Unknown ==> Write(s, req) == (Err(InvalidRequestError), s)
    ensures req.kind == Delete && !Write(s, req).0.Ok? ==> Write(s, req).1 == s
  {
    hide Removed, WriteAll, Base, DeleteAll;
    if req.kind == DeleteSession && req.znodes != [] && req.znodes[0].path in s && s[req.znodes[0].path].data.SessionData? {
      DeleteNeverPanics(s, s[req.znodes[0].path].data.session.ephemerals);
    }
  }

  lemma {:induction false} DeleteNeverPanics(s: Tree, paths: seq<Path>)
    ensures !DeleteAll(s, paths).0.Panic?
    decreases |paths|
  {
    if paths != [] && paths[0] in s {
      var (r, s1) := DeleteOp(s, s[paths[0]].path);
      if r.Ok? { DeleteNeverPanics(s1, paths[1..]); }
    }
  }

  // ---- A write is reported ----

  /** After an accepted create, setdata or delete is applied, the check of the paths it returned
      reports every registration on the written path, once each, and none is left there. */
  lemma WrittenIsReported(c: Tree, storage: Tree, s: Tree, w: Watchers, req: WriteRequest, id: string)
    requires Check(c, storage, req).0.Ok? && (req.kind == Create || req.kind == SetData || req.kind == Delete)
    requires var q := Check(c, storage, req).0.value;
             && AtOwnPaths(s) && Write(s, q).0.Ok?
             && CheckWatch(w, Write(s, q).1, Write(s, q).0.value).0.Ok?
    ensures var q := Check(c, storage, req).0.value;
            var (r, s') := Write(s, q);
            var (told, w') := CheckWatch(w, s', r.value);
            && q.znodes != [] && r.value == [q.znodes[0].path]
            && Count(told.value.1, id) == Count(WatchersOf(w, q.znodes[0].path), id)
            && WatchersOf(w', q.znodes[0].path) == []
  {
    var q := Check(c, storage, req).0.value;
    AcceptedKind(c, storage, req);
    hide Check, Write, CheckWatch, AtOwnPaths;
    WriteReturnsPaths(s, q);
    var p := q.znodes[0].path;
    ReportsOnce(w, Write(s, q).1, [p], id);
    WatchedOne(w, p, id);
  }

  lemma AcceptedKind(c: Tree, storage: Tree, req: WriteRequest)
    requires Check(c, storage, req).0.Ok? && (req.kind == Create || req.kind == SetData || req.kind == Delete)
    ensures Check(c, storage, req).0.value.kind == req.kind && Check(c, storage, req).0.value.znodes != []
  {
    hide SequentialPath, CheckCreate, CheckUpdate, CheckDelete;
  }

  lemma WatchedOne(w: Watchers, p: Path, id: string)
    ensures Watched(w, [p], id) == Count(WatchersOf(w, p), id)
  {
    assert [p][..0] == [];
  }

  // ---- What registering sends ----

  /** An accepted registration asks for one update of the session's znode: it names the version the
      znode has, keeps everything else of the session, and adds the watched path with the version it
      has, or 0 if there is no such znode. */
  lemma EncodeAdds(w: Watchers, files: Tree, id: string, p: Path, cache: bool)
    requires EncodeWatch(w, files, id, p, cache).0.Ok?
    requires Aligned(files[SessionPath(id)].data.session)
    ensures var (r, q) := (EncodeWatch(w, files, id, p, cache).0.value, SessionPath(id));
            && r.kind == SetData && |r.znodes| == 1
            && var z, before := r.znodes[0], files[q].data.session;
              && z.path == q && z.version == files[q].version && z.ephemeral == "" && !z.sequential && z.children == []
              && z.data.SessionData? && Aligned(z.data.session)
              && PairsOf(z.data.session) == PairsOf(before) + [(p, if p in files then files[p].version else 0)]
              && z.data.session.id == before.id && z.data.session.ephemerals == before.ephemerals
              && z.data.session.timeout == before.timeout
  {
    var q := SessionPath(id);
    ListsStayAligned(files[q].data.session, p, VersionOf(files, p));
  }

  /** A registration fails exactly if there is no such session, and then it changes nothing. */
  lemma WhyNotWatched(w: Watchers, files: Tree, id: string, p: Path, cache: bool)
    ensures var (r, w') := EncodeWatch(w, files, id, p, cache);
            && (!r.Ok? <==> SessionPath(id) !in files || !files[SessionPath(id)].data.SessionData?)
            && (!r.Ok? ==> r == Err(if SessionPath(id) in files then CriticalError else ExistsError) && w' == w)
  {
    hide VersionOf;
  }

  /** Once that request is accepted and applied, the stored session has the watch. */
  lemma WatchIsStored(w: Watchers, files: Tree, id: string, p: Path, cache: bool, c: Tree, storage: Tree, s: Tree)
    requires EncodeWatch(w, files, id, p, cache).0.Ok? && Aligned(files[SessionPath(id)].data.session)
    requires Check(c, storage, EncodeWatch(w, files, id, p, cache).0.value).0.Ok?
    ensures var q, r := SessionPath(id), EncodeWatch(w, files, id, p, cache).0.value;
            var s' := Write(s, Check(c, storage, r).0.value).1;
            && q in s' && s'[q].data.SessionData? && Aligned(s'[q].data.session)
            && PairsOf(s'[q].data.session) == PairsOf(files[q].data.session) + [(p, if p in files then files[p].version else 0)]
  {
    var r := EncodeWatch(w, files, id, p, cache).0.value;
    EncodeAdds(w, files, id, p, cache);
    hide EncodeWatch, PairsOf, Aligned;
    UpdateKeepsData(c, storage, s, r);
  }

  lemma UpdateKeepsData(c: Tree, storage: Tree, s: Tree, r: WriteRequest)
    requires r.kind == SetData && r.znodes != [] && Check(c, storage, r).0.Ok?
    ensures var s', z := Write(s, Check(c, storage, r).0.value).1, r.znodes[0]; z.path in s' && s'[z.path].data == z.data
  {
  }

  // ---- What a report sends ----

  /** The sessions to report, each with its path, in the order of the paths and of the registrations; a
      path written twice counts once. */
  function Due(w: Watchers, paths: seq<Path>): seq<(string, Path)> {
    if paths == [] then []
    else
      var init, p := paths[..|paths| - 1], paths[|paths| - 1];
      Due(w, init) + (if p in init then [] else With(WatchersOf(w, p), p))
  }

  function With(ids: seq<string>, p: Path): (ps: seq<(string, Path)>)
    ensures |ps| == |ids| && forall j :: 0 <= j < |ids| ==> ps[j] == (ids[j], p)
  {
    if ids == [] then [] else With(ids[..|ids| - 1], p) + [(ids[|ids| - 1], p)]
  }

  /** The update takes the path's first pair off the session's lists and leaves the rest of the session
      as it is; it names the version the session's znode has. */
  ghost predicate Drops(files: Tree, z: ZNode, id: string, p: Path) {
    var q := SessionPath(id);
    && q in files && files[q].data.SessionData? && z.path == q && z.version == files[q].version && z.data.SessionData?
    && var before, after := files[q].data.session, z.data.session;
      && after.id == before.id && after.ephemerals == before.ephemerals && after.timeout == before.timeout
      && (Aligned(before) ==> Aligned(after) && PairsOf(after) == WithoutPair(PairsOf(before), p))
  }

  lemma UntriggerDrops(files: Tree, id: string, p: Path)
    requires Untrigger(files, id, p).Ok?
    ensures Drops(files, Untrigger(files, id, p).value, id, p)
  {
    var before := files[SessionPath(id)].data.session;
    if Aligned(before) { ListsStayAligned(before, p, 0); }
    hide FirstAt, RemovedAt, WithoutPair, PairsOf;
  }

  lemma {:induction false} AllDrop(files: Tree, ids: seq<string>, p: Path)
    requires UntriggerAll(files, ids, p).Ok?
    ensures var zs := UntriggerAll(files, ids, p).value;
            |zs| == |ids| && forall j :: 0 <= j < |ids| ==> Drops(files, zs[j], ids[j], p)
  {
    hide Drops, Untrigger;
    if ids != [] {
      AllDrop(files, ids[..|ids| - 1], p);
      UntriggerDrops(files, ids[|ids| - 1], p);
    }
  }

  /** A check returns exactly the sessions due, and for each one the update that drops the reported path
      from its lists. */
  lemma {:induction false} ReportDrops(w: Watchers, files: Tree, paths: seq<Path>)
    requires CheckWatch(w, files, paths).0.Ok?
    ensures var (zs, ids) := CheckWatch(w, files, paths).0.value;
            var due := Due(w, paths);
            |zs| == |ids| == |due| && forall j :: 0 <= j < |due| ==> ids[j] == due[j].0 && Drops(files, zs[j], due[j].0, due[j].1)
    decreases |paths|
  {
    hide Drops, UntriggerAll;
    if paths != [] {
      var init, p := paths[..|paths| - 1], paths[|paths| - 1];
      assert paths == init + [p];
      ReportDrops(w, files, init);
      ReportsOnce(w, files, init, "");
      var w1 := CheckWatch(w, files, init).1;
      assert WatchersOf(w1, p) == if p in init then [] else WatchersOf(w, p);
      AllDrop(files, WatchersOf(w1, p), p);
    }
  }

  /** A check succeeds exactly if the session of every watcher of a written path is stored, and, where
      it lists the path, has a version for it. */
  ghost predicate Reportable(files: Tree, id: string, p: Path) {
    var q := SessionPath(id);
    q in files && files[q].data.SessionData? && FirstAt(files[q].data.session.watchlist, p) < |files[q].data.session.versionlist|
  }

  lemma {:induction false} WhenReported(files: Tree, ids: seq<string>, p: Path)
    ensures UntriggerAll(files, ids, p).Ok? <==> forall id <- ids :: Reportable(files, id, p)
  {
    hide Untrigger, Reportable;
    if ids != [] {
      var init, last := ids[..|ids| - 1], ids[|ids| - 1];
      WhenReported(files, init, p);
      OneReported(files, last, p);
      assert ids == init + [last];
      if forall id <- ids :: Reportable(files, id, p) { assert forall id <- init :: Reportable(files, id, p); }
    }
  }

  lemma OneReported(files: Tree, id: string, p: Path)
    ensures Untrigger(files, id, p).Ok? <==> Reportable(files, id, p)
  {
    hide FirstAt;
  }

  lemma {:induction false} WhenCheckReports(w: Watchers, files: Tree, paths: seq<Path>)
    ensures CheckWatch(w, files, paths).0.Ok? <==> forall p <- paths :: forall id <- WatchersOf(w, p) :: Reportable(files, id, p)
    decreases |paths|
  {
    hide Reportable, UntriggerAll;
    if paths != [] {
      var init, p := paths[..|paths| - 1], paths[|paths| - 1];
      assert paths == init + [p];
      WhenCheckReports(w, files, init);
      var (r, w1) := CheckWatch(w, files, init);
      if r.Ok? {
        ReportsOnce(w, files, init, "");
        WhenReported(files, WatchersOf(w1, p), p);
        assert WatchersOf(w1, p) == if p in init then [] else WatchersOf(w, p);
      }
    }
  }

  /** How reporting to a session fails: its znode is missing or holds no session, or a path that it lists
      has no version. */
  predicate Blames<T>(r: Result<T>, files: Tree, id: string, p: Path) {
    var q := SessionPath(id);
    if q !in files then r == Err(ExistsError)
    else if !files[q].data.SessionData? then r == Err(CriticalError)
    else r.Panic? && FirstAt(files[q].data.session.watchlist, p) >= |files[q].data.session.versionlist|
  }

  predicate SomeBlamed<T>(r: Result<T>, files: Tree, ids: seq<string>, p: Path) {
    exists i :: 0 <= i < |ids| && Blames(r, files, ids[i], p)
  }

  lemma {:induction false} WhyNotReported(files: Tree, ids: seq<string>, p: Path)
    requires !UntriggerAll(files, ids, p).Ok?
    ensures SomeBlamed(UntriggerAll(files, ids, p), files, ids, p)
  {
    hide FirstAt;
    var init, last := ids[..|ids| - 1], ids[|ids| - 1];
    if UntriggerAll(files, init, p).Ok? {
      assert Blames(UntriggerAll(files, ids, p), files, last, p);
    } else {
      WhyNotReported(files, init, p);
      var i :| 0 <= i < |init| && Blames(UntriggerAll(files, init, p), files, init[i], p);
      assert Blames(UntriggerAll(files, ids, p), files, ids[i], p);
    }
  }

  /** The paths before the k-th are reported, which fails at one of its sessions. */
  ghost predicate FailsAt<T>(w: Watchers, files: Tree, r: Result<T>, w': Watchers, paths: seq<Path>, k: nat) {
    && k < |paths| && CheckWatch(w, files, paths[..k]).0.Ok?
    && (forall p :: p in w' <==> p in w && p !in paths[..k]) && (forall p :: p in w' ==> w'[p] == w[p])
    && SomeBlamed(r, files, WatchersOf(w', paths[k]), paths[k])
  }

  /** A check that fails has cleared the paths before the one at which it fails, whose sessions it does
      not return; every other registration stays. */
  lemma {:induction false} FailedCheckKeeps(w: Watchers, files: Tree, paths: seq<Path>)
    requires !CheckWatch(w, files, paths).0.Ok?
    ensures var (r, w') := CheckWatch(w, files, paths); exists k: nat :: FailsAt(w, files, r, w', paths, k)
    decreases |paths|
  {
    hide SomeBlamed, UntriggerAll, FailsAt;
    var init, p := paths[..|paths| - 1], paths[|paths| - 1];
    var r := CheckWatch(w, files, paths).0;
    var (before, w1) := CheckWatch(w, files, init);
    if before.Ok? {
      ReportsOnce(w, files, init, "");
      WhyNotReported(files, WatchersOf(w1, p), p);
      SameBlame(UntriggerAll(files, WatchersOf(w1, p), p), r, files, WatchersOf(w1, p), p);
      assert FailsAt(w, files, r, w1, paths, |init|) by { LastFails(w, files, r, w1, paths); }
    } else {
      FailedCheckKeeps(w, files, init);
      var k: nat :| FailsAt(w, files, before, w1, init, k);
      assert FailsAt(w, files, r, w1, paths, k) by { FailsInLonger(w, files, before, r, w1, paths, k); }
    }
  }

  /** The failure is passed on as it is. */
  lemma SameBlame<T, U>(r: Result<T>, r': Result<U>, files: Tree, ids: seq<string>, p: Path)
    requires SomeBlamed(r, files, ids, p) && (r.Err? ==> r'.Err? && r'.error == r.error) && (r.Panic? ==> r'.Panic?)
    ensures SomeBlamed(r', files, ids, p)
  {
    hide FirstAt;
    var i :| 0 <= i < |ids| && Blames(r, files, ids[i], p);
    assert Blames(r', files, ids[i], p);
  }

  lemma LastFails<T>(w: Watchers, files: Tree, r: Result<T>, w': Watchers, paths: seq<Path>)
    requires paths != [] && CheckWatch(w, files, paths[..|paths| - 1]).0.Ok?
    requires (forall p :: p in w' <==> p in w && p !in paths[..|paths| - 1]) && (forall p :: p in w' ==> w'[p] == w[p])
    requires SomeBlamed(r, files, WatchersOf(w', paths[|paths| - 1]), paths[|paths| - 1])
    ensures FailsAt(w, files, r, w', paths, |paths| - 1)
  {
    hide SomeBlamed, CheckWatch;
  }

  lemma FailsInLonger<T, U>(w: Watchers, files: Tree, r: Result<T>, r': Result<U>, w': Watchers, paths: seq<Path>, k: nat)
    requires paths != [] && FailsAt(w, files, r, w', paths[..|paths| - 1], k)
    requires (r.Err? ==> r'.Err? && r'.error == r.error) && (r.Panic? ==> r'.Panic?)
    ensures FailsAt(w, files, r', w', paths, k)
  {
    hide SomeBlamed, CheckWatch;
    SameBlame(r, r', files, WatchersOf(w', paths[k]), paths[k]);
    assert paths[..|paths| - 1][..k] == paths[..k];
  }

  /** A watch that was registered, applied and then reported leaves the session's lists as they were,
      if the session did not watch the path before. */
  lemma {:induction false} ComesAndGoes(pairs: seq<(Path, int)>, p: Path, version: int)
    requires forall j :: 0 <= j < |pairs| ==> pairs[j].0 != p
    ensures WithoutPair(pairs + [(p, version)], p) == pairs
  {
    if pairs == [] {
      assert pairs + [(p, version)] == [(p, version)];
    } else {
      assert (pairs + [(p, version)])[1..] == pairs[1..] + [(p, version)];
      ComesAndGoes(pairs[1..], p, version);
    }
  }
}
