/** Runs of requests against the cache, and the replicas that apply what was accepted. */
module ZnodeRuns {
  import opened Znodes
  import opened ZnodeAgreement

  /** A delete that the cache and the storage understand alike. */
  ghost predicate Leaf(c: Tree, req: WriteRequest) {
    req.kind == Delete && req.znodes != [] ==> req.znodes[0].path != [] && Childless(c, req.znodes[0].path)
  }

  /** The updates of the request name the versions they expect. */
  predicate NamesVersions(req: WriteRequest) {
    match req.kind
    case SetData => req.znodes != [] && req.znodes[0].version != -1
    case WatchTrigger => Explicit(req.znodes)
    case _ => true
  }

  /** An accepted request never fails on a replica that agrees with the cache, unless it is a sync
      request, which no replica knows; and they go on agreeing. */
  lemma AcceptedIsWritten(c: Tree, storage: Tree, s: Tree, versions: bool, req: WriteRequest)
    requires Alike(c, s, versions) && Keyed(s)
    requires Check(c, storage, req).0.Ok? && req.kind != DeleteSession && Leaf(c, req)
    ensures var (r, c') := Check(c, storage, req);
            var (w, s') := Write(s, r.value);
            && (w.Ok? <==> req.kind != Sync)
            && r.value.kind == req.kind
            && Keyed(s') && Alike(c', s', versions && NamesVersions(req))
  {
    hide Dir, Base, CheckCreate, WriteCreate, CheckUpdate, CheckUpdates, WriteAll, WriteOp, CheckDelete, DeleteOp;
    hide Keyed, Childless, SequentialPath, Alike;
    match req.kind
    case Create =>
      var z := req.znodes[0];
      var named := if z.sequential then z.(path := SequentialPath(c, z.path)) else z;
      assert CheckCreate(c, named).0.Ok?;
      CreateAgrees(c, s, versions, named);
    case SetData =>
      assert CheckUpdate(c, req.znodes[0]).0.Ok?;
      UpdateAgrees(c, s, versions, req.znodes[0]);
      UpdateVersions(c, s, versions, req.znodes[0]);
    case WatchTrigger => UpdatesAgree(c, s, versions, req.znodes);
    case Delete =>
      assert CheckDelete(c, req.znodes[0]).0.Ok?;
      DeleteAgrees(c, s, versions, req.znodes[0]);
    case Sync =>
    case Unknown =>
  }

  lemma UpdateVersions(c: Tree, s: Tree, versions: bool, z: ZNode)
    requires Alike(c, s, versions) && Keyed(s) && CheckUpdate(c, z).0.Ok?
    ensures Alike(CheckUpdate(c, z).1, WriteOp(s, CheckUpdate(c, z).0.value), versions && z.version != -1)
  {
    UpdateAgrees(c, s, versions, z);
  }

  // ---- Refusals and panics ----

  /** The updates made before the first one refused. */
  function Made(c: Tree, zs: seq<ZNode>): seq<ZNode>
    decreases |zs|
  {
    if zs == [] || !CheckUpdate(c, zs[0]).0.Ok? then [] else [zs[0]] + Made(CheckUpdate(c, zs[0]).1, zs[1..])
  }

  /** The data that the last update of a path brings, or what was there. */
  function FinalData(zs: seq<ZNode>, p: Path, before: Data): Data {
    if zs == [] then before else FinalData(zs[1..], p, if zs[0].path == p then zs[0].data else before)
  }

  /** How many updates of a path name the version they expect. */
  function Named(zs: seq<ZNode>, p: Path): nat {
    if zs == [] then 0 else (if zs[0].path == p && zs[0].version != -1 then 1 else 0) + Named(zs[1..], p)
  }

  /** Nobody can tell that the updates were made: none named a version, and the last one of each path
      brought the data that was there. */
  ghost predicate Traceless(c: Tree, zs: seq<ZNode>) {
    && (forall j :: 0 <= j < |zs| ==> zs[j].version == -1)
    && forall p :: p in c ==> FinalData(zs, p, c[p].data) == c[p].data
  }

  lemma {:induction false} UpdatesLeave(c: Tree, zs: seq<ZNode>, p: Path)
    requires p in c
    ensures var c', made := CheckUpdates(c, zs).1, Made(c, zs);
            && p in c'
            && c'[p] == c[p].(data := FinalData(made, p, c[p].data), version := c[p].version + Named(made, p))
    decreases |zs|
  {
    if zs != [] && CheckUpdate(c, zs[0]).0.Ok? {
      var c1, rest := CheckUpdate(c, zs[0]).1, Made(CheckUpdate(c, zs[0]).1, zs[1..]);
      UpdatesLeave(c1, zs[1..], p);
      assert ([zs[0]] + rest)[1..] == rest;
    }
  }

  lemma {:induction false} NamedNone(zs: seq<ZNode>, p: Path)
    ensures Named(zs, p) == 0 <==> forall j :: 0 <= j < |zs| && zs[j].path == p ==> zs[j].version == -1
  {
    if zs != [] {
      NamedNone(zs[1..], p);
      assert zs == [zs[0]] + zs[1..];
      if forall j :: 0 <= j < |zs| && zs[j].path == p ==> zs[j].version == -1 {
        assert forall j :: 0 <= j < |zs[1..]| && zs[1..][j].path == p ==> zs[j + 1].version == -1;
      }
    }
  }

  lemma {:induction false} MadeInCache(c: Tree, zs: seq<ZNode>)
    ensures forall j :: 0 <= j < |Made(c, zs)| ==> Made(c, zs)[j].path in c
    decreases |zs|
  {
    if zs != [] && CheckUpdate(c, zs[0]).0.Ok? {
      MadeInCache(CheckUpdate(c, zs[0]).1, zs[1..]);
    }
  }

  /** What a list of updates leaves of the cache. */
  lemma UpdatesLeaveNothing(c: Tree, zs: seq<ZNode>)
    ensures CheckUpdates(c, zs).1 == c <==> Traceless(c, Made(c, zs))
  {
    var c', made := CheckUpdates(c, zs).1, Made(c, zs);
    UpdatesKeys(c, zs);
    MadeInCache(c, zs);
    hide CheckUpdates, Made, FinalData, Named;
    forall p | p in c
      ensures c'[p] == c[p].(data := FinalData(made, p, c[p].data), version := c[p].version + Named(made, p))
      ensures Named(made, p) == 0 <==> forall j :: 0 <= j < |made| && made[j].path == p ==> made[j].version == -1
    {
      UpdatesLeave(c, zs, p);
      NamedNone(made, p);
    }
    if c' == c {
      forall j | 0 <= j < |made| ensures made[j].version == -1 {
        var p := made[j].path;
        assert c'[p].version == c[p].version + Named(made, p);
      }
      forall p | p in c ensures FinalData(made, p, c[p].data) == c[p].data {
        assert c'[p].data == FinalData(made, p, c[p].data);
      }
    }
    if Traceless(c, made) {
      forall p | p in c ensures c'[p] == c[p] {
      }
    }
  }

  /** A refused request leaves the cache as it was, except that a watch trigger keeps the updates made
      before the one refused: nothing is left behind exactly if those made no difference, and when they
      name their versions, exactly if the very first one is refused. */
  lemma RefusalLeavesCache(c: Tree, storage: Tree, req: WriteRequest)
    requires Check(c, storage, req).0.Err?
    ensures req.kind != WatchTrigger ==> Check(c, storage, req).1 == c
    ensures req.kind == WatchTrigger ==> (Check(c, storage, req).1 == c <==> Traceless(c, Made(c, req.znodes)))
    ensures req.kind == WatchTrigger && Explicit(req.znodes) ==>
      (Check(c, storage, req).1 == c <==> CheckUpdate(c, req.znodes[0]).0.Err?)
  {
    hide Traceless, Made, Explicit, CheckUpdates, UnlistAll;
    if req.kind == DeleteSession && req.znodes[0].path in storage && storage[req.znodes[0].path].data.SessionData? {
      UnlistAllNeverRefuses(c, storage[req.znodes[0].path].data.session.ephemerals);
    }
    if req.kind == WatchTrigger {
      UpdatesLeaveNothing(c, req.znodes);
      RefusedHasUpdates(c, req.znodes);
      if Explicit(req.znodes) { ExplicitLeaves(c, req.znodes); }
    }
  }

  lemma RefusedHasUpdates(c: Tree, zs: seq<ZNode>)
    requires CheckUpdates(c, zs).0.Err?
    ensures zs != []
  {
  }

  lemma ExplicitLeaves(c: Tree, zs: seq<ZNode>)
    requires CheckUpdates(c, zs).0.Err? && Explicit(zs) && zs != []
    ensures CheckUpdates(c, zs).1 == c <==> CheckUpdate(c, zs[0]).0.Err?
  {
    if CheckUpdate(c, zs[0]).0.Ok? {
      var z := zs[0];
      var c1 := CheckUpdate(c, z).1;
      ExplicitHead(zs);
      UpdatesKeepVersions(c1, zs[1..], z.path);
      assert c1[z.path].version == c[z.path].version + 1;
    }
  }

  lemma {:induction false} UnlistAllNeverRefuses(c: Tree, paths: seq<Path>)
    ensures !UnlistAll(c, paths).0.Err?
    decreases |paths|
  {
    if paths != [] && Dir(paths[0]) in c {
      UnlistAllNeverRefuses(Unlisted(c, paths[0]), paths[1..]);
    }
  }

  lemma {:induction false} UpdatesKeepVersions(c: Tree, zs: seq<ZNode>, p: Path)
    requires p in c
    ensures var c' := CheckUpdates(c, zs).1; p in c' && c[p].version <= c'[p].version
    decreases |zs|
  {
    if zs != [] {
      UpdatesKeepVersions(CheckUpdate(c, zs[0]).1, zs[1..], p);
    }
  }

  /** The i-th path of a session has no parent in the cache, or none any more: it was among the
      paths unlisted before. */
  ghost predicate MissesParent(c: Tree, paths: seq<Path>, i: nat)
    requires i < |paths|
  {
    Dir(paths[i]) !in c || Dir(paths[i]) in paths[..i]
  }

  lemma {:induction false} WhenUnlistPanics(c: Tree, paths: seq<Path>)
    ensures UnlistAll(c, paths).0.Panic? <==> exists i: nat :: i < |paths| && MissesParent(c, paths, i)
    decreases |paths|
  {
    hide Dir, Base;
    if paths != [] {
      assert MissesParent(c, paths, 0) <==> Dir(paths[0]) !in c;
      if Dir(paths[0]) in c {
        var c1, rest := Unlisted(c, paths[0]), paths[1..];
        WhenUnlistPanics(c1, rest);
        forall i: nat | i < |rest| ensures MissesParent(c1, rest, i) <==> MissesParent(c, paths, i + 1) {
          MissesLater(c, paths, i);
        }
        if i: nat :| i < |paths| && MissesParent(c, paths, i) {
          assert i > 0 && MissesParent(c1, rest, i - 1);
        }
      }
    }
  }

  lemma MissesLater(c: Tree, paths: seq<Path>, i: nat)
    requires i + 1 < |paths| && Dir(paths[0]) in c
    ensures MissesParent(Unlisted(c, paths[0]), paths[1..], i) <==> MissesParent(c, paths, i + 1)
  {
    hide Dir, Base;
    assert Unlisted(c, paths[0]).Keys == c.Keys - {paths[0]};
    assert paths[..i + 1] == [paths[0]] + paths[1..][..i];
  }

  /** What makes the leader panic: a request without a znode, a sequential create under a missing
      parent, an accepted delete under a missing parent, and ending a session one of whose znodes
      misses its parent. */
  lemma WhenCheckPanics(c: Tree, storage: Tree, req: WriteRequest)
    ensures Check(c, storage, req).0.Panic? <==>
      match req.kind
      case Create => req.znodes == [] || (req.znodes[0].sequential && Dir(req.znodes[0].path) !in c)
      case SetData => req.znodes == []
      case Delete =>
        req.znodes == [] ||
        (var z := req.znodes[0];
         z.path in c && (z.version == -1 || z.version == c[z.path].version) && Dir(z.path) !in c)
      case DeleteSession =>
        req.znodes == [] ||
        (var p := req.znodes[0].path;
         p in storage && storage[p].data.SessionData?
         && exists i: nat :: i < |storage[p].data.session.ephemerals| && MissesParent(c, storage[p].data.session.ephemerals, i))
      case _ => false
  {
    hide MissesParent, SequentialPath;
    if req.kind == WatchTrigger {
      UpdatesNeverPanic(c, req.znodes);
    } else if req.kind == DeleteSession && req.znodes != [] {
      var p := req.znodes[0].path;
      if p in storage && storage[p].data.SessionData? { WhenUnlistPanics(c, storage[p].data.session.ephemerals); }
    }
  }

  /** The i-th update of a list expects the version that its znode has by then: every earlier update of
      the znode that named its version has raised it by one. */
  ghost predicate Expected(c: Tree, zs: seq<ZNode>, i: nat)
    requires i < |zs|
  {
    zs[i].path in c && (zs[i].version == -1 || zs[i].version == c[zs[i].path].version + Named(zs[..i], zs[i].path))
  }

  lemma {:induction false} WhenUpdatesAccepted(c: Tree, zs: seq<ZNode>)
    ensures CheckUpdates(c, zs).0.Ok? <==> forall i: nat :: i < |zs| ==> Expected(c, zs, i)
    decreases |zs|
  {
    hide Named;
    if zs != [] {
      assert zs[..0] == [];
      NamedNone([], zs[0].path);
      assert Expected(c, zs, 0) <==> CheckUpdate(c, zs[0]).0.Ok?;
      if CheckUpdate(c, zs[0]).0.Ok? {
        var c1, rest := CheckUpdate(c, zs[0]).1, zs[1..];
        WhenUpdatesAccepted(c1, rest);
        forall i: nat | i < |rest| ensures Expected(c1, rest, i) <==> Expected(c, zs, i + 1) { ExpectedLater(c, zs, i); }
        if forall i: nat :: i < |rest| ==> Expected(c1, rest, i) {
          forall i: nat | i < |zs| ensures Expected(c, zs, i) { if i > 0 { assert Expected(c1, rest, i - 1); } }
        }
      }
    }
  }

  lemma ExpectedLater(c: Tree, zs: seq<ZNode>, i: nat)
    requires i + 1 < |zs| && CheckUpdate(c, zs[0]).0.Ok?
    ensures Expected(CheckUpdate(c, zs[0]).1, zs[1..], i) <==> Expected(c, zs, i + 1)
  {
    var part := zs[..i + 1];
    assert part[0] == zs[0] && part[1..] == zs[1..][..i];
  }

  /** Exactly these requests are accepted. */
  lemma WhenCheckAccepts(c: Tree, storage: Tree, req: WriteRequest)
    ensures Check(c, storage, req).0.Ok? <==>
      match req.kind
      case Create =>
        req.znodes != [] &&
        var z := req.znodes[0];
        && (z.sequential ==> Dir(z.path) in c)
        && var p := if z.sequential then SequentialPath(c, z.path) else z.path;
          && p !in c && Dir(p) in c && c[Dir(p)].ephemeral == "" && z.version == 0
          && (z.ephemeral != "" ==> SessionPath(z.ephemeral) in c && c[SessionPath(z.ephemeral)].data.SessionData?)
      case SetData =>
        req.znodes != [] && req.znodes[0].path in c
        && (req.znodes[0].version == -1 || req.znodes[0].version == c[req.znodes[0].path].version)
      case Delete =>
        req.znodes != [] && req.znodes[0].path in c && Dir(req.znodes[0].path) in c
        && (req.znodes[0].version == -1 || req.znodes[0].version == c[req.znodes[0].path].version)
      case DeleteSession =>
        req.znodes != [] && req.znodes[0].path in storage && storage[req.znodes[0].path].data.SessionData?
        && var names := storage[req.znodes[0].path].data.session.ephemerals;
          forall i: nat :: i < |names| ==> !MissesParent(c, names, i)
      case WatchTrigger => forall i: nat :: i < |req.znodes| ==> Expected(c, req.znodes, i)
      case Sync => true
      case Unknown => false
  {
    hide MissesParent, SequentialPath, Expected, UnlistAll, CheckUpdates, Dir, Base;
    if req.kind == WatchTrigger {
      WhenUpdatesAccepted(c, req.znodes);
    } else if req.kind == DeleteSession && req.znodes != [] {
      var p := req.znodes[0].path;
      if p in storage && storage[p].data.SessionData? {
        WhenUnlistPanics(c, storage[p].data.session.ephemerals);
        UnlistAllNeverRefuses(c, storage[p].data.session.ephemerals);
      }
    }
  }

  /** What a refused request is told: that the znode, its parent or its session is missing or that the
      znode is there already, or that its version is another one. */
  lemma WhyRefused(c: Tree, storage: Tree, req: WriteRequest)
    requires Check(c, storage, req).0.Err? && req.znodes != []
    ensures (req.kind == SetData || req.kind == Delete) ==>
      var e, z := Check(c, storage, req).0.error, req.znodes[0];
      && (e == ExistsError <==> z.path !in c) && (e == VersionError <==> z.path in c)
    ensures req.kind == Create && !req.znodes[0].sequential ==>
      var e, z := Check(c, storage, req).0.error, req.znodes[0];
      var free := z.path !in c && Dir(z.path) in c;
      && (!free ==> e == ExistsError) && (e == InvalidRequestError <==> free && c[Dir(z.path)].ephemeral != "")
      && (e == VersionError <==> free && c[Dir(z.path)].ephemeral == "" && z.version != 0)
      && (e == CriticalError ==> SessionPath(z.ephemeral) in c && !c[SessionPath(z.ephemeral)].data.SessionData?)
    ensures req.kind == DeleteSession ==>
      Check(c, storage, req).0.error == (if req.znodes[0].path in storage then CriticalError else ExistsError)
    ensures req.kind == Unknown ==> Check(c, storage, req).0.error == InvalidRequestError
  {
    hide Dir, Base, CheckUpdates, UnlistAll, SequentialPath;
    if req.kind == DeleteSession && req.znodes[0].path in storage && storage[req.znodes[0].path].data.SessionData? {
      UnlistAllNeverRefuses(c, storage[req.znodes[0].path].data.session.ephemerals);
    }
  }

  /** What is proposed in place of an accepted request: a create's znode at version 1, under its new name
      if it is sequential; updated znodes one version on, except unconditional ones; the rest as it was. */
  lemma WhatIsProposed(c: Tree, storage: Tree, req: WriteRequest)
    requires Check(c, storage, req).0.Ok?
    ensures var r := Check(c, storage, req).0.value;
      && r.kind == req.kind && (req.kind != SetData ==> |r.znodes| == |req.znodes|)
      && (req.kind == Create ==>
           && r.znodes[0] == req.znodes[0].(version := 1, path := r.znodes[0].path) && r.znodes[1..] == req.znodes[1..]
           && Dir(r.znodes[0].path) == Dir(req.znodes[0].path)
           && (!req.znodes[0].sequential ==> r.znodes[0].path == req.znodes[0].path))
      && (req.kind == SetData ==> r.znodes == [Advanced(req.znodes[0])])
      && (req.kind == WatchTrigger ==> forall i :: 0 <= i < |req.znodes| ==> r.znodes[i] == Advanced(req.znodes[i]))
      && (req.kind == Delete || req.kind == DeleteSession || req.kind == Sync ==> r == req)
  {
    hide Base, CheckUpdates, CheckDelete, CheckDeleteSession;
    if req.kind == WatchTrigger { UpdatesAdvance(c, req.znodes); }
  }

  function Advanced(z: ZNode): ZNode {
    if z.version == -1 then z else z.(version := z.version + 1)
  }

  lemma {:induction false} UpdatesAdvance(c: Tree, zs: seq<ZNode>)
    requires CheckUpdates(c, zs).0.Ok?
    ensures var updated := CheckUpdates(c, zs).0.value;
            |updated| == |zs| && forall i :: 0 <= i < |zs| ==> updated[i] == Advanced(zs[i])
    decreases |zs|
  {
    if zs != [] {
      UpdatesAdvance(CheckUpdate(c, zs[0]).1, zs[1..]);
    }
  }

  lemma {:induction false} UpdatesNeverPanic(c: Tree, zs: seq<ZNode>)
    ensures !CheckUpdates(c, zs).0.Panic?
    decreases |zs|
  {
    if zs != [] {
      UpdatesNeverPanic(CheckUpdate(c, zs[0]).1, zs[1..]);
    }
  }

  // ---- Runs ----

  /** A request arriving at the leader, and what the leader has in storage at that moment. */
  datatype Arrival = Arrival(req: WriteRequest, storage: Tree)

  /** The leader's cache and the requests it has proposed. */
  datatype Leader = Leader(cache: Tree, log: seq<WriteRequest>)

  function Handle(l: Leader, a: Arrival): Leader {
    var (r, c) := Check(l.cache, a.storage, a.req);
    Leader(c, if r.Ok? then l.log + [r.value] else l.log)
  }

  function HandleAll(l: Leader, run: seq<Arrival>): Leader
    decreases |run|
  {
    if run == [] then l else Handle(HandleAll(l, run[..|run| - 1]), run[|run| - 1])
  }

  /** Hypotheses on one request, all visible to the leader when it arrives. */
  ghost predicate Orderly(c: Tree, a: Arrival) {
    && a.req.kind != DeleteSession && a.req.kind != Sync
    && Leaf(c, a.req)
    && (a.req.kind == WatchTrigger ==> Check(c, a.storage, a.req).0.Ok? || Traceless(c, Made(c, a.req.znodes)))
  }

  ghost predicate AllOrderly(l: Leader, run: seq<Arrival>)
    decreases |run|
  {
    run == [] ||
    (AllOrderly(l, run[..|run| - 1]) && Orderly(HandleAll(l, run[..|run| - 1]).cache, run[|run| - 1]))
  }

  predicate AllNameVersions(run: seq<Arrival>) {
    run == [] || (AllNameVersions(run[..|run| - 1]) && NamesVersions(run[|run| - 1].req))
  }

  /** Writing the requests of a log in order; a replica stops at the first failure. */
  function Replay(s: Tree, log: seq<WriteRequest>): Result<Tree>
    decreases |log|
  {
    if log == [] then Ok(s)
    else
      match Replay(s, log[..|log| - 1])
      case Err(e) => Err(e)
      case Panic => Panic
      case Ok(t) =>
        var (w, t') := Write(t, log[|log| - 1]);
        match w
        case Ok(_) => Ok(t')
        case Err(e) => Err(e)
        case Panic => Panic
  }

  /** The storage left behind by a log, up to and including the first write that fails. */
  function StorageAfter(s: Tree, log: seq<WriteRequest>): Tree
    decreases |log|
  {
    if log == [] then s
    else
      var before := StorageAfter(s, log[..|log| - 1]);
      if Replay(s, log[..|log| - 1]).Ok? then Write(before, log[|log| - 1]).1 else before
  }

  lemma {:induction false} StorageOfReplay(s: Tree, log: seq<WriteRequest>)
    requires Replay(s, log).Ok?
    ensures StorageAfter(s, log) == Replay(s, log).value
    decreases |log|
  {
    hide Write;
    if log != [] { StorageOfReplay(s, log[..|log| - 1]); }
  }

  lemma ReplayOneMore(s: Tree, log: seq<WriteRequest>, req: WriteRequest)
    requires Replay(s, log).Ok?
    ensures var (w, t) := Write(Replay(s, log).value, req);
            (w.Ok? ==> Replay(s, log + [req]) == Ok(t)) && (Replay(s, log + [req]).Ok? <==> w.Ok?)
  {
    assert (log + [req])[..|log|] == log;
  }

  /** The leader's speculative cache is the log folded into storage: nothing it accepted can fail on
      a replica, for any interleaving of requests, because what a replica has applied is always a
      prefix of that log. */
  lemma {:induction false} CacheIsReplay(s: Tree, run: seq<Arrival>)
    requires Keyed(s) && AllOrderly(Leader(s, []), run)
    ensures var l := HandleAll(Leader(s, []), run);
            var t := Replay(s, l.log);
            t.Ok? && Keyed(t.value) && Alike(l.cache, t.value, AllNameVersions(run))
    decreases |run|
  {
    hide Keyed, Alike, Check, Write, Leaf, NamesVersions;
    if run == [] {
      AlikeSelf(s);
    } else {
      var init, a := run[..|run| - 1], run[|run| - 1];
      CacheIsReplay(s, init);
      var l := HandleAll(Leader(s, []), init);
      var t := Replay(s, l.log).value;
      var (r, c) := Check(l.cache, a.storage, a.req);
      if r.Ok? {
        AcceptedIsWritten(l.cache, a.storage, t, AllNameVersions(init), a.req);
        ReplayOneMore(s, l.log, r.value);
      } else {
        OrderlyRefusal(l.cache, a);
        Weaken(l.cache, t, AllNameVersions(init), AllNameVersions(run));
      }
    }
  }

  lemma AlikeSelf(s: Tree)
    ensures Alike(s, s, true)
  {
  }

  lemma Weaken(c: Tree, s: Tree, versions: bool, fewer: bool)
    requires Alike(c, s, versions) && (fewer ==> versions)
    ensures Alike(c, s, fewer)
  {
  }

  lemma OrderlyRefusal(c: Tree, a: Arrival)
    requires Orderly(c, a) && !Check(c, a.storage, a.req).0.Ok?
    ensures Check(c, a.storage, a.req).1 == c
  {
    hide *;
    OrderlyParts(c, a);
    if Check(c, a.storage, a.req).0.Panic? {
      PanicLeavesCache(c, a.storage, a.req);
    } else {
      RefusalLeavesCache(c, a.storage, a.req);
    }
  }

  /** A leader that panics has not touched its cache, unless it was ending a session. */
  lemma PanicLeavesCache(c: Tree, storage: Tree, req: WriteRequest)
    requires Check(c, storage, req).0.Panic? && req.kind != DeleteSession
    ensures Check(c, storage, req).1 == c
  {
    hide SequentialPath, CheckUpdates, UnlistAll;
    if req.kind == WatchTrigger { UpdatesNeverPanic(c, req.znodes); }
  }

  lemma OrderlyParts(c: Tree, a: Arrival)
    requires Orderly(c, a)
    ensures a.req.kind != DeleteSession && a.req.kind != Sync
    ensures a.req.kind == WatchTrigger ==> Check(c, a.storage, a.req).0.Ok? || Traceless(c, Made(c, a.req.znodes))
  {
    hide Check, Traceless, Made, Leaf;
  }

  /** A replica can apply any prefix of the log, and from there the rest. */
  lemma {:induction false} ReplayPrefix(s: Tree, log: seq<WriteRequest>, k: nat)
    requires k <= |log| && Replay(s, log).Ok?
    ensures Replay(s, log[..k]).Ok? && Replay(Replay(s, log[..k]).value, log[k..]) == Replay(s, log)
    decreases |log|
  {
    hide Write;
    if k == |log| {
      assert log[..k] == log && log[k..] == [];
    } else {
      var init := log[..|log| - 1];
      ReplayPrefix(s, init, k);
      assert init[..k] == log[..k];
      assert log[k..][..|log[k..]| - 1] == init[k..];
    }
  }

  // ---- No lost updates ----

  /** While a path stays in the cache its version never decreases, whatever the leader handles. */
  lemma VersionsGrow(c: Tree, a: Arrival, p: Path)
    requires p in c && p in Check(c, a.storage, a.req).1
    ensures c[p].version <= Check(c, a.storage, a.req).1[p].version
  {
    hide SequentialPath;
    match a.req.kind
    case WatchTrigger => UpdatesKeepVersions(c, a.req.znodes, p);
    case DeleteSession =>
      if a.req.znodes != [] && a.req.znodes[0].path in a.storage && a.storage[a.req.znodes[0].path].data.SessionData? {
        UnlistKeepsVersions(c, a.storage[a.req.znodes[0].path].data.session.ephemerals, p);
      }
    case _ =>
  }

  lemma {:induction false} UnlistKeepsVersions(c: Tree, paths: seq<Path>, p: Path)
    ensures var c' := UnlistAll(c, paths).1;
            c'.Keys <= c.Keys && (p in c' ==> c[p].version == c'[p].version)
    decreases |paths|
  {
    if paths != [] && Dir(paths[0]) in c {
      UnlistKeepsVersions(Unlisted(c, paths[0]), paths[1..], p);
    }
  }

  function CacheAfter(c: Tree, run: seq<Arrival>, i: nat): Tree
    requires i <= |run|
  {
    HandleAll(Leader(c, []), run[..i]).cache
  }

  lemma CacheStep(c: Tree, run: seq<Arrival>, i: nat)
    requires i < |run|
    ensures CacheAfter(c, run, i + 1) == Check(CacheAfter(c, run, i), run[i].storage, run[i].req).1
  {
    assert run[..i + 1][..i] == run[..i];
  }

  /** From step i to step j the path is never gone. */
  ghost predicate Lives(c: Tree, run: seq<Arrival>, p: Path, i: nat, j: nat)
    requires i <= j <= |run|
  {
    forall k :: i <= k <= j ==> p in CacheAfter(c, run, k)
  }

  lemma {:induction false} VersionsGrowOver(c: Tree, run: seq<Arrival>, p: Path, i: nat, j: nat)
    requires i <= j <= |run| && Lives(c, run, p, i, j)
    ensures p in CacheAfter(c, run, i) && p in CacheAfter(c, run, j)
    ensures CacheAfter(c, run, i)[p].version <= CacheAfter(c, run, j)[p].version
    decreases j
  {
    hide CacheAfter, Check;
    assert p in CacheAfter(c, run, j);
    if i < j {
      assert p in CacheAfter(c, run, j - 1);
      VersionsGrowOver(c, run, p, i, j - 1);
      CacheStep(c, run, j - 1);
      VersionsGrow(CacheAfter(c, run, j - 1), run[j - 1], p);
    }
  }

  /** Step i is an accepted setdata on the path that names its version. */
  ghost predicate Updates(c: Tree, run: seq<Arrival>, p: Path, i: nat)
    requires i < |run|
  {
    var a := run[i];
    && a.req.kind == SetData && a.req.znodes != [] && a.req.znodes[0].path == p && a.req.znodes[0].version != -1
    && Check(CacheAfter(c, run, i), a.storage, a.req).0.Ok?
  }

  /** No lost updates: between creation and deletion of a path, accepted updates expect strictly
      increasing versions, so no two of them ever started from the same one. */
  lemma NoLostUpdates(c: Tree, run: seq<Arrival>, p: Path, i: nat, j: nat)
    requires i < j < |run| && Lives(c, run, p, i, j)
    requires Updates(c, run, p, i) && Updates(c, run, p, j)
    ensures run[i].req.znodes[0].version < run[j].req.znodes[0].version
  {
    hide CacheAfter;
    CacheStep(c, run, i);
    assert p in CacheAfter(c, run, i) && p in CacheAfter(c, run, i + 1);
    VersionsGrowOver(c, run, p, i + 1, j);
    UpdateNamesVersion(CacheAfter(c, run, i), run[i]);
    UpdateNamesVersion(CacheAfter(c, run, j), run[j]);
  }

  lemma UpdateNamesVersion(c: Tree, a: Arrival)
    requires a.req.kind == SetData && a.req.znodes != [] && a.req.znodes[0].version != -1
    requires Check(c, a.storage, a.req).0.Ok?
    ensures var z, c' := a.req.znodes[0], Check(c, a.storage, a.req).1;
            z.path in c && z.path in c' && z.version == c[z.path].version && c'[z.path].version == z.version + 1
  {
  }
}
