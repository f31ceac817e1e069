/** Watches: a session registers for a path, and the next write of that path reports it once. */
module Watch {
  import opened Wrappers
  import opened Znodes
  import opened ZnodeTrees

  type Watchers = map<Path, seq<string>>

  function WatchersOf(w: Watchers, p: Path): seq<string> {
    if p in w then w[p] else []
  }

  // ---- The two lists of a session ----

  function Pairs<T>(watchlist: seq<T>, versionlist: seq<int>): seq<(T, int)>
    requires |watchlist| == |versionlist|
  {
    if watchlist == [] then [] else [(watchlist[0], versionlist[0])] + Pairs(watchlist[1..], versionlist[1..])
  }

  /** Versions correspond to watched paths by position. */
  predicate Aligned(s: Session) {
    |s.watchlist| == |s.versionlist|
  }

  function PairsOf(s: Session): seq<(Path, int)>
    requires Aligned(s)
  {
    Pairs(s.watchlist, s.versionlist)
  }

  function FirstAt<T(==)>(watchlist: seq<T>, p: T): (i: int)
    ensures -1 <= i < |watchlist| && (i >= 0 ==> watchlist[i] == p)
  {
    if watchlist == [] then -1
    else if watchlist[0] == p then 0
    else if FirstAt(watchlist[1..], p) == -1 then -1 else 1 + FirstAt(watchlist[1..], p)
  }

  function RemovedAt<T>(s: seq<T>, i: nat): seq<T>
    requires i < |s|
  {
    s[..i] + s[i + 1..]
  }

  /** The first occurrence of the path goes from both lists; a version list that is too short
      panics. */
  function Unwatched(s: Session, p: Path): Result<Session> {
    var i := FirstAt(s.watchlist, p);
    if i == -1 then Ok(s)
    else if i >= |s.versionlist| then Panic
    else Ok(s.(watchlist := RemovedAt(s.watchlist, i), versionlist := RemovedAt(s.versionlist, i)))
  }

  function Watching(s: Session, p: Path, version: int): Session {
    s.(watchlist := s.watchlist + [p], versionlist := s.versionlist + [version])
  }

  /** The first pair of that path goes. */
  function WithoutPair<T(==)>(pairs: seq<(T, int)>, p: T): seq<(T, int)> {
    if pairs == [] then [] else if pairs[0].0 == p then pairs[1..] else [pairs[0]] + WithoutPair(pairs[1..], p)
  }

  /** On aligned lists, watching adds a pair and unwatching drops the first pair of the path; the
      other versions stay with their paths. */
  lemma ListsStayAligned(s: Session, p: Path, version: int)
    requires Aligned(s)
    ensures Aligned(Watching(s, p, version)) && PairsOf(Watching(s, p, version)) == PairsOf(s) + [(p, version)]
    ensures Unwatched(s, p).Ok? && Aligned(Unwatched(s, p).value) && PairsOf(Unwatched(s, p).value) == WithoutPair(PairsOf(s), p)
  {
    PairsAppend(s.watchlist, s.versionlist, p, version);
    PairsWithout(s.watchlist, s.versionlist, p);
  }

  lemma {:induction false} PairsAppend<T>(w: seq<T>, v: seq<int>, p: T, version: int)
    requires |w| == |v|
    ensures Pairs(w + [p], v + [version]) == Pairs(w, v) + [(p, version)]
  {
    if w == [] {
      assert w + [p] == [p] && v + [version] == [version];
    } else {
      assert (w + [p])[1..] == w[1..] + [p] && (v + [version])[1..] == v[1..] + [version];
      PairsAppend(w[1..], v[1..], p, version);
    }
  }

  lemma {:induction false} PairsWithout<T>(w: seq<T>, v: seq<int>, p: T)
    requires |w| == |v|
    ensures var i := FirstAt(w, p);
            WithoutPair(Pairs(w, v), p) == if i == -1 then Pairs(w, v) else Pairs(RemovedAt(w, i), RemovedAt(v, i))
  {
    if w != [] {
      var i := FirstAt(w, p);
      if w[0] == p {
        assert RemovedAt(w, 0) == w[1..] && RemovedAt(v, 0) == v[1..];
      } else {
        PairsWithout(w[1..], v[1..], p);
        assert WithoutPair(Pairs(w, v), p) == [(w[0], v[0])] + WithoutPair(Pairs(w[1..], v[1..]), p);
        hide WithoutPair, FirstAt;
        if i > 0 { RemovedLater(w, v, i); }
      }
    }
  }

  lemma RemovedLater<T>(w: seq<T>, v: seq<int>, i: nat)
    requires |w| == |v| && 0 < i < |w|
    ensures Pairs(RemovedAt(w, i), RemovedAt(v, i)) == [(w[0], v[0])] + Pairs(RemovedAt(w[1..], i - 1), RemovedAt(v[1..], i - 1))
  {
    assert RemovedAt(w, i)[1..] == RemovedAt(w[1..], i - 1) && RemovedAt(w, i)[0] == w[0];
    assert RemovedAt(v, i)[1..] == RemovedAt(v[1..], i - 1) && RemovedAt(v, i)[0] == v[0];
    hide RemovedAt;
  }

  // ---- Registering ----

  /** Watching a path that does not exist expects version 0. */
  function VersionOf(files: Tree, p: Path): int {
    if p in files then files[p].version else 0
  }

  function EncodeWatch(w: Watchers, files: Tree, id: string, p: Path, cache: bool): (Result<WriteRequest>, Watchers) {
    var sessionPath := SessionPath(id);
    if sessionPath !in files then (Err(ExistsError), w)
    else if !files[sessionPath].data.SessionData? then (Err(CriticalError), w)
    else
      var data := SessionData(Watching(files[sessionPath].data.session, p, VersionOf(files, p)));
      (Ok(WriteRequest(SetData, [ZNode(sessionPath, data, files[sessionPath].version, "", false, [])])),
       if cache then w[p := WatchersOf(w, p) + [id]] else w)
  }

  // ---- Picking up a session ----

  /** The watched paths of a session: those whose stored version is the one they are watched at, the
      others, and whether each has a version to compare with. */
  datatype Sifted = Sifted(kept: seq<Path>, stale: seq<Path>, whole: bool)

  function Sift(files: Tree, watchlist: seq<Path>, versionlist: seq<int>): Sifted {
    if watchlist == [] then Sifted([], [], true)
    else
      var n := |watchlist| - 1;
      var s, p := Sift(files, watchlist[..n], versionlist), watchlist[n];
      if !s.whole then s
      else if n >= |versionlist| then s.(whole := false)
      else if VersionOf(files, p) == versionlist[n] then s.(kept := s.kept + [p])
      else s.(stale := s.stale + [p])
  }

  function RegisteredAt(w: Watchers, id: string, paths: seq<Path>): Watchers {
    if paths == [] then w
    else
      var w1, p := RegisteredAt(w, id, paths[..|paths| - 1]), paths[|paths| - 1];
      w1[p := WatchersOf(w1, p) + [id]]
  }

  /** A session that comes back is registered for what is unchanged. The update it asks for shortens the
      watched paths but not the versions; with nothing left to watch there is neither an update nor a
      word of what changed. */
  function ResumeWatch(w: Watchers, files: Tree, id: string): (Result<Option<(WriteRequest, seq<Path>)>>, Watchers) {
    var q := SessionPath(id);
    if q !in files then (Err(ExistsError), w)
    else if !files[q].data.SessionData? then (Err(CriticalError), w)
    else
      var session := files[q].data.session;
      var s := Sift(files, session.watchlist, session.versionlist);
      (if !s.whole then Panic
       else if s.kept == [] then Ok(None)
       else
         var z := ZNode(q, SessionData(session.(watchlist := s.kept)), files[q].version, "", false, []);
         Ok(Some((WriteRequest(SetData, [z]), s.stale))),
       RegisteredAt(w, id, s.kept))
  }

  lemma SiftNext(files: Tree, watchlist: seq<Path>, versionlist: seq<int>, i: nat)
    requires i < |watchlist|
    ensures Sift(files, watchlist[..i + 1], versionlist) ==
      var s, p := Sift(files, watchlist[..i], versionlist), watchlist[i];
      if !s.whole then s
      else if i >= |versionlist| then s.(whole := false)
      else if VersionOf(files, p) == versionlist[i] then s.(kept := s.kept + [p])
      else s.(stale := s.stale + [p])
  {
    assert watchlist[..i + 1][..i] == watchlist[..i];
  }

  lemma RegisteredNext(w: Watchers, id: string, paths: seq<Path>, p: Path)
    ensures var w1 := RegisteredAt(w, id, paths); RegisteredAt(w, id, paths + [p]) == w1[p := WatchersOf(w1, p) + [id]]
  {
    assert (paths + [p])[..|paths|] == paths;
  }

  /** Without a version the rest is not looked at. */
  lemma {:induction false} SiftStops(files: Tree, watchlist: seq<Path>, versionlist: seq<int>, n: nat)
    requires n <= |watchlist| && !Sift(files, watchlist[..n], versionlist).whole
    ensures Sift(files, watchlist, versionlist) == Sift(files, watchlist[..n], versionlist)
    decreases |watchlist|
  {
    if n == |watchlist| {
      assert watchlist[..n] == watchlist;
    } else {
      assert watchlist[..|watchlist| - 1][..n] == watchlist[..n];
      SiftStops(files, watchlist[..|watchlist| - 1], versionlist, n);
    }
  }

  // ---- Reporting ----

  /** The update that takes a path off a session's lists. */
  function Untrigger(files: Tree, id: string, p: Path): Result<ZNode> {
    var sessionPath := SessionPath(id);
    if sessionPath !in files then Err(ExistsError)
    else if !files[sessionPath].data.SessionData? then Err(CriticalError)
    else match Unwatched(files[sessionPath].data.session, p)
      case Ok(s) => Ok(ZNode(sessionPath, SessionData(s), files[sessionPath].version, "", false, []))
      case Err(e) => Err(e)
      case Panic => Panic
  }

  function UntriggerAll(files: Tree, ids: seq<string>, p: Path): Result<seq<ZNode>> {
    if ids == [] then Ok([])
    else match UntriggerAll(files, ids[..|ids| - 1], p)
      case Err(e) => Err(e)
      case Panic => Panic
      case Ok(zs) =>
        match Untrigger(files, ids[|ids| - 1], p)
        case Ok(z) => Ok(zs + [z])
        case Err(e) => Err(e)
        case Panic => Panic
  }

  /** The updates and sessions of a list of written paths, and the watchers left. A failure keeps
      what was cleared before it. */
  function CheckWatch(w: Watchers, files: Tree, paths: seq<Path>): (Result<(seq<ZNode>, seq<string>)>, Watchers) {
    if paths == [] then (Ok(([], [])), w)
    else
      var (r, w1) := CheckWatch(w, files, paths[..|paths| - 1]);
      var p := paths[|paths| - 1];
      match r
      case Err(e) => (Err(e), w1)
      case Panic => (Panic, w1)
      case Ok((zs, ids)) =>
        var here := WatchersOf(w1, p);
        match UntriggerAll(files, here, p)
        case Ok(more) => (Ok((zs + more, ids + here)), w1 - {p})
        case Err(e) => (Err(e), w1)
        case Panic => (Panic, w1)
  }

  method CollectUpdates(files: Tree, ids: seq<string>, p: Path) returns (r: Result<seq<ZNode>>)
    ensures r == UntriggerAll(files, ids, p)
  {
    var zs: seq<ZNode> := [];
    for i := 0 to |ids|
      invariant UntriggerAll(files, ids[..i], p) == Ok(zs)
    {
      assert ids[..i + 1][..i] == ids[..i];
      var z := Untrigger(files, ids[i], p);
      if !z.Ok? {
        UntriggerStops(files, ids, p, i + 1);
        return if z.Panic? then Panic else Err(z.error);
      }
      zs := zs + [z.value];
    }
    assert ids[..|ids|] == ids;
    return Ok(zs);
  }

  /** A failure on a prefix is the failure of the whole list. */
  lemma {:induction false} UntriggerStops(files: Tree, ids: seq<string>, p: Path, n: nat)
    requires n <= |ids| && !UntriggerAll(files, ids[..n], p).Ok?
    ensures UntriggerAll(files, ids, p) == UntriggerAll(files, ids[..n], p)
    decreases |ids|
  {
    if n == |ids| {
      assert ids[..n] == ids;
    } else {
      assert ids[..|ids| - 1][..n] == ids[..n];
      UntriggerStops(files, ids[..|ids| - 1], p, n);
    }
  }

  lemma {:induction false} CheckStops(w: Watchers, files: Tree, paths: seq<Path>, n: nat)
    requires n <= |paths| && !CheckWatch(w, files, paths[..n]).0.Ok?
    ensures CheckWatch(w, files, paths) == CheckWatch(w, files, paths[..n])
    decreases |paths|
  {
    if n == |paths| {
      assert paths[..n] == paths;
    } else {
      assert paths[..|paths| - 1][..n] == paths[..n];
      CheckStops(w, files, paths[..|paths| - 1], n);
    }
  }

  class WatchCache {
    var watchers: Watchers

    constructor ()
      ensures watchers == map[]
    {
      watchers := map[];
    }

    method Encode(files: Tree, id: string, p: Path, cache: bool) returns (r: Result<WriteRequest>)
      modifies this
      ensures (r, watchers) == EncodeWatch(old(watchers), files, id, p, cache)
    {
      var sessionPath := SessionPath(id);
      if sessionPath !in files {
        return Err(ExistsError);
      }
      var n := files[sessionPath];
      if !n.data.SessionData? {
        return Err(CriticalError);
      }
      var s := n.data.session;
      var version := if p in files then files[p].version else 0;
      s := s.(watchlist := s.watchlist + [p], versionlist := s.versionlist + [version]);
      if cache {
        watchers := watchers[p := WatchersOf(watchers, p) + [id]];
      }
      return Ok(WriteRequest(SetData, [ZNode(sessionPath, SessionData(s), n.version, "", false, [])]));
    }

    method Resume(files: Tree, id: string) returns (r: Result<Option<(WriteRequest, seq<Path>)>>)
      modifies this
      ensures (r, watchers) == ResumeWatch(old(watchers), files, id)
    {
      var sessionPath := SessionPath(id);
      if sessionPath !in files {
        return Err(ExistsError);
      }
      var n := files[sessionPath];
      if !n.data.SessionData? {
        return Err(CriticalError);
      }
      var s := n.data.session;
      var paths: seq<Path>, updated: seq<Path> := [], [];
      assert Sift(files, s.watchlist[..0], s.versionlist) == Sifted([], [], true);
      hide Sift, WatchersOf;
      for i := 0 to |s.watchlist|
        invariant Sift(files, s.watchlist[..i], s.versionlist) == Sifted(updated, paths, true)
        invariant watchers == RegisteredAt(old(watchers), id, updated)
      {
        SiftNext(files, s.watchlist, s.versionlist, i);
        var p := s.watchlist[i];
        var version := if p in files then files[p].version else 0;
        if i >= |s.versionlist| {
          SiftStops(files, s.watchlist, s.versionlist, i + 1);
          return Panic;
        }
        if version == s.versionlist[i] {
          RegisteredNext(old(watchers), id, updated, p);
          watchers := watchers[p := WatchersOf(watchers, p) + [id]];
          updated := updated + [p];
        } else {
          paths := paths + [p];
        }
      }
      assert s.watchlist[..|s.watchlist|] == s.watchlist;
      if updated != [] {
        s := s.(watchlist := updated);
        return Ok(Some((WriteRequest(SetData, [ZNode(sessionPath, SessionData(s), n.version, "", false, [])]), paths)));
      }
      return Ok(None);
    }

    method Check(files: Tree, paths: seq<Path>) returns (r: Result<(WriteRequest, seq<string>)>)
      modifies this
      ensures var (c, w) := CheckWatch(old(watchers), files, paths);
              && watchers == w
              && r == match c
                      case Ok((zs, ids)) => Ok((WriteRequest(WatchTrigger, zs), ids))
                      case Err(e) => Err(e)
                      case Panic => Panic
    {
      hide UntriggerAll;
      var znodes: seq<ZNode>, sessions: seq<string> := [], [];
      for i := 0 to |paths|
        invariant CheckWatch(old(watchers), files, paths[..i]) == (Ok((znodes, sessions)), watchers)
      {
        assert paths[..i + 1][..i] == paths[..i];
        var here := WatchersOf(watchers, paths[i]);
        var updates := CollectUpdates(files, here, paths[i]);
        if !updates.Ok? {
          CheckStops(old(watchers), files, paths, i + 1);
          return if updates.Panic? then Panic else Err(updates.error);
        }
        znodes := znodes + updates.value;
        sessions := sessions + here;
        watchers := watchers - {paths[i]};
      }
      assert paths[..|paths|] == paths;
      return Ok((WriteRequest(WatchTrigger, znodes), sessions));
    }
  }

  // ---- One shot ----

  /** How many of the written paths a session watches, a path written twice counting once. */
  function Watched(w: Watchers, paths: seq<Path>, id: string): nat {
    if paths == [] then 0
    else
      var init, p := paths[..|paths| - 1], paths[|paths| - 1];
      Watched(w, init, id) + (if p in init then 0 else Count(WatchersOf(w, p), id))
  }

  lemma {:induction false} CountJoin(a: seq<string>, b: seq<string>, id: string)
    ensures Count(a + b, id) == Count(a, id) + Count(b, id)
  {
    if a == [] {
      assert a + b == b;
    } else {
      assert (a + b)[1..] == a[1..] + b;
      CountJoin(a[1..], b, id);
    }
  }

  /** A write reports every registration on the written paths once and removes it; registrations on
      other paths stay. */
  lemma {:induction false} ReportsOnce(w: Watchers, files: Tree, paths: seq<Path>, id: string)
    requires CheckWatch(w, files, paths).0.Ok?
    ensures var (r, w') := CheckWatch(w, files, paths);
            && Count(r.value.1, id) == Watched(w, paths, id)
            && (forall p :: p in w' <==> p in w && p !in paths)
            && (forall p :: p in w' ==> w'[p] == w[p])
            && |r.value.0| == |r.value.1|
  {
    if paths != [] {
      var init, p := paths[..|paths| - 1], paths[|paths| - 1];
      assert paths == init + [p];
      ReportsOnce(w, files, init, id);
      var (r, w1) := CheckWatch(w, files, init);
      CountJoin(r.value.1, WatchersOf(w1, p), id);
      UpdatePerWatcher(files, WatchersOf(w1, p), p);
      hide UntriggerAll;
      assert WatchersOf(w1, p) == if p in init then [] else WatchersOf(w, p);
    }
  }

  lemma {:induction false} UpdatePerWatcher(files: Tree, ids: seq<string>, p: Path)
    ensures UntriggerAll(files, ids, p).Ok? ==> |UntriggerAll(files, ids, p).value| == |ids|
  {
    if ids != [] { UpdatePerWatcher(files, ids[..|ids| - 1], p); }
  }

  // ---- Over any sequence of registrations and writes ----

  /** A server sets a watch, or reports the paths of a committed write. */
  datatype Event = Set(files: Tree, id: string, path: Path, cache: bool) | Written(files: Tree, paths: seq<Path>)

  function After(w: Watchers, e: Event): Watchers {
    match e
    case Set(files, id, p, cache) => EncodeWatch(w, files, id, p, cache).1
    case Written(files, paths) => CheckWatch(w, files, paths).1
  }

  function AfterAll(w: Watchers, run: seq<Event>): Watchers {
    if run == [] then w else After(AfterAll(w, run[..|run| - 1]), run[|run| - 1])
  }

  /** Registrations of `id` for `p` made by one event, and reports of them. */
  function Sets(w: Watchers, e: Event, id: string, p: Path): nat {
    if e.Set? && e.cache && e.id == id && e.path == p && EncodeWatch(w, e.files, e.id, e.path, e.cache).0.Ok? then 1 else 0
  }

  /** The registrations of a session that are reported for one written path, if it is one. */
  function ReportsAt(w: Watchers, paths: seq<Path>, id: string, p: Path): nat {
    if p in paths then Count(WatchersOf(w, p), id) else 0
  }

  function ReportsOf(w: Watchers, e: Event, id: string, p: Path): nat {
    if e.Written? then ReportsAt(w, e.paths, id, p) else 0
  }

  function AllSets(w: Watchers, run: seq<Event>, id: string, p: Path): nat {
    if run == [] then 0
    else AllSets(w, run[..|run| - 1], id, p) + Sets(AfterAll(w, run[..|run| - 1]), run[|run| - 1], id, p)
  }

  function AllReports(w: Watchers, run: seq<Event>, id: string, p: Path): nat {
    if run == [] then 0
    else AllReports(w, run[..|run| - 1], id, p) + ReportsOf(AfterAll(w, run[..|run| - 1]), run[|run| - 1], id, p)
  }

  /** No report was cut short. */
  predicate AllReported(w: Watchers, run: seq<Event>) {
    run == [] ||
    var init, e := run[..|run| - 1], run[|run| - 1];
    AllReported(w, init) && (e.Written? ==> CheckWatch(AfterAll(w, init), e.files, e.paths).0.Ok?)
  }

  lemma EventBalance(w: Watchers, e: Event, id: string, p: Path)
    requires e.Written? ==> CheckWatch(w, e.files, e.paths).0.Ok?
    ensures Count(WatchersOf(After(w, e), p), id) + ReportsOf(w, e, id, p) == Count(WatchersOf(w, p), id) + Sets(w, e, id, p)
    ensures e.Written? && p in e.paths ==> WatchersOf(After(w, e), p) == []
  {
    if e.Written? {
      ReportsOnce(w, e.files, e.paths, id);
      hide CheckWatch;
    } else if e.path == p {
      CountAppend(WatchersOf(w, p), e.id, id);
    }
  }

  /** One-shot watches: over any sequence of registrations and writes each registration is reported
      exactly once, at the next write of its path, or is still waiting at the end. */
  lemma {:induction false} EachReportedOnce(w: Watchers, run: seq<Event>, id: string, p: Path)
    requires AllReported(w, run)
    ensures Count(WatchersOf(AfterAll(w, run), p), id) + AllReports(w, run, id, p)
      == Count(WatchersOf(w, p), id) + AllSets(w, run, id, p)
    ensures run != [] && run[|run| - 1].Written? && p in run[|run| - 1].paths ==> WatchersOf(AfterAll(w, run), p) == []
  {
    if run != [] {
      var init, e := run[..|run| - 1], run[|run| - 1];
      EachReportedOnce(w, init, id, p);
      EventBalance(AfterAll(w, init), e, id, p);
      hide After, ReportsOf, Sets, CheckWatch, Count;
    }
  }

  // ---- The reports are the sessions that the checks return ----

  /** The reports of one write over the paths of a list, a path listed twice counting once. */
  function ReportsOver(w: Watchers, paths: seq<Path>, id: string, ps: seq<Path>): nat {
    if ps == [] then 0
    else
      var init, p := ps[..|ps| - 1], ps[|ps| - 1];
      ReportsOver(w, paths, id, init) + (if p in init then 0 else ReportsAt(w, paths, id, p))
  }

  lemma {:induction false} OneMorePath(w: Watchers, paths: seq<Path>, p: Path, id: string, ps: seq<Path>)
    ensures ReportsOver(w, paths + [p], id, ps)
      == ReportsOver(w, paths, id, ps) + (if p in ps && p !in paths then Count(WatchersOf(w, p), id) else 0)
  {
    if ps != [] {
      var init, q := ps[..|ps| - 1], ps[|ps| - 1];
      assert ps == init + [q];
      OneMorePath(w, paths, p, id, init);
      hide Count, WatchersOf;
    }
  }

  lemma {:induction false} NothingWritten(w: Watchers, id: string, ps: seq<Path>)
    ensures ReportsOver(w, [], id, ps) == 0
  {
    if ps != [] { NothingWritten(w, id, ps[..|ps| - 1]); }
  }

  /** A check returns a session once for each of its registrations on the written paths. */
  lemma {:induction false} ReturnsReported(w: Watchers, files: Tree, paths: seq<Path>, id: string, ps: seq<Path>)
    requires CheckWatch(w, files, paths).0.Ok? && forall p <- paths :: p in ps
    ensures Count(CheckWatch(w, files, paths).0.value.1, id) == ReportsOver(w, paths, id, ps)
    decreases |paths|
  {
    if paths == [] {
      NothingWritten(w, id, ps);
    } else {
      var init, p := paths[..|paths| - 1], paths[|paths| - 1];
      assert paths == init + [p];
      ReturnsReported(w, files, init, id, ps);
      var (r, w1) := CheckWatch(w, files, init);
      ReportsOnce(w, files, init, id);
      CountJoin(r.value.1, WatchersOf(w1, p), id);
      OneMorePath(w, init, p, id, ps);
      hide UntriggerAll, ReportsOver;
      assert WatchersOf(w1, p) == if p in init then [] else WatchersOf(w, p);
    }
  }

  /** How often the check of one event returns a session, and those of a whole run. */
  function Returned(w: Watchers, e: Event, id: string): nat {
    if e.Written? && CheckWatch(w, e.files, e.paths).0.Ok? then Count(CheckWatch(w, e.files, e.paths).0.value.1, id) else 0
  }

  function AllReturned(w: Watchers, run: seq<Event>, id: string): nat {
    if run == [] then 0
    else AllReturned(w, run[..|run| - 1], id) + Returned(AfterAll(w, run[..|run| - 1]), run[|run| - 1], id)
  }

  /** The reports of a whole run, path by path. */
  function AllReportsOver(w: Watchers, run: seq<Event>, id: string, ps: seq<Path>): nat {
    if ps == [] then 0
    else
      var init, p := ps[..|ps| - 1], ps[|ps| - 1];
      AllReportsOver(w, run, id, init) + (if p in init then 0 else AllReports(w, run, id, p))
  }

  predicate WritesWithin(run: seq<Event>, ps: seq<Path>) {
    forall e <- run :: e.Written? ==> forall p <- e.paths :: p in ps
  }

  lemma {:induction false} OneMoreEvent(w: Watchers, run: seq<Event>, e: Event, id: string, ps: seq<Path>)
    ensures AllReportsOver(w, run + [e], id, ps)
      == AllReportsOver(w, run, id, ps) + ReportsOver(AfterAll(w, run), if e.Written? then e.paths else [], id, ps)
  {
    assert (run + [e])[..|run|] == run;
    if ps != [] {
      OneMoreEvent(w, run, e, id, ps[..|ps| - 1]);
      hide AfterAll, Count, WatchersOf;
    }
  }

  /** Over any run, what the checks return is, session by session, what is reported path by path. */
  lemma {:induction false} ReturnedIsReported(w: Watchers, run: seq<Event>, id: string, ps: seq<Path>)
    requires AllReported(w, run) && WritesWithin(run, ps)
    ensures AllReturned(w, run, id) == AllReportsOver(w, run, id, ps)
  {
    hide *;
    if run == [] {
      NothingReported(w, id, ps);
    } else {
      var init, e := run[..|run| - 1], run[|run| - 1];
      LastEvent(w, run, id, ps);
      ReturnedIsReported(w, init, id, ps);
      OneMoreEvent(w, init, e, id, ps);
      assert run == init + [e];
    }
  }

  /** What the last event of a run returns. */
  lemma LastEvent(w: Watchers, run: seq<Event>, id: string, ps: seq<Path>)
    requires AllReported(w, run) && WritesWithin(run, ps) && run != []
    ensures var init, e := run[..|run| - 1], run[|run| - 1];
            && AllReported(w, init) && WritesWithin(init, ps)
            && AllReturned(w, run, id)
              == AllReturned(w, init, id) + ReportsOver(AfterAll(w, init), if e.Written? then e.paths else [], id, ps)
  {
    hide CheckWatch, ReportsOver, Count, AfterAll;
    var init, e := run[..|run| - 1], run[|run| - 1];
    if e.Written? {
      ReturnsReported(AfterAll(w, init), e.files, e.paths, id, ps);
    } else {
      NothingWritten(AfterAll(w, init), id, ps);
    }
  }

  lemma {:induction false} NothingReported(w: Watchers, id: string, ps: seq<Path>)
    ensures AllReportsOver(w, [], id, ps) == 0 == AllReturned(w, [], id)
  {
    if ps != [] { NothingReported(w, id, ps[..|ps| - 1]); }
  }

  /** The registrations of a whole run, path by path. */
  function AllSetsOver(w: Watchers, run: seq<Event>, id: string, ps: seq<Path>): nat {
    if ps == [] then 0
    else
      var init, p := ps[..|ps| - 1], ps[|ps| - 1];
      AllSetsOver(w, run, id, init) + (if p in init then 0 else AllSets(w, run, id, p))
  }

  lemma {:induction false} BalanceOver(w: Watchers, run: seq<Event>, id: string, ps: seq<Path>)
    requires AllReported(w, run)
    ensures Watched(AfterAll(w, run), ps, id) + AllReportsOver(w, run, id, ps) == Watched(w, ps, id) + AllSetsOver(w, run, id, ps)
  {
    hide AfterAll, AllReports, AllSets, AllReported, Count, WatchersOf;
    if ps != [] {
      BalanceOver(w, run, id, ps[..|ps| - 1]);
      EachReportedOnce(w, run, id, ps[|ps| - 1]);
    }
  }

  /** So what the checks of a run return of a session, and what still waits at the end, are together
      its registrations: each is returned once at most, and none gets lost. */
  lemma EachReturnedOnce(w: Watchers, run: seq<Event>, id: string, ps: seq<Path>)
    requires AllReported(w, run) && WritesWithin(run, ps)
    ensures Watched(AfterAll(w, run), ps, id) + AllReturned(w, run, id) == Watched(w, ps, id) + AllSetsOver(w, run, id, ps)
  {
    hide *;
    ReturnedIsReported(w, run, id, ps);
    BalanceOver(w, run, id, ps);
  }

  /** So a second write of the same paths, with no registration in between, reports nobody. */
  lemma {:induction false} SecondWriteIsSilent(w: Watchers, files: Tree, paths: seq<Path>)
    requires forall p <- paths :: p !in w
    ensures CheckWatch(w, files, paths) == (Ok(([], [])), w)
  {
    if paths != [] {
      var init, p := paths[..|paths| - 1], paths[|paths| - 1];
      assert paths == init + [p];
      SecondWriteIsSilent(w, files, init);
      assert WatchersOf(w, p) == [] && UntriggerAll(files, [], p) == Ok([]);
      assert w - {p} == w;
      assert CheckWatch(w, files, paths).0.value.0 == [] + [];
    }
  }

  /** Every update a report asks for names the session's stored version and keeps its lists aligned,
      with the reported path gone from its first position. */
  lemma {:induction false} UpdatesAreAligned(files: Tree, ids: seq<string>, p: Path, j: nat)
    requires UntriggerAll(files, ids, p).Ok? && j < |ids|
    requires SessionPath(ids[j]) in files && files[SessionPath(ids[j])].data.SessionData?
    requires Aligned(files[SessionPath(ids[j])].data.session)
    ensures |UntriggerAll(files, ids, p).value| == |ids|
    ensures var z, n := UntriggerAll(files, ids, p).value[j], files[SessionPath(ids[j])];
            && z.path == SessionPath(ids[j]) && z.version == n.version && z.data.SessionData? && Aligned(z.data.session)
            && PairsOf(z.data.session) == WithoutPair(PairsOf(n.data.session), p)
  {
    UpdatePerWatcher(files, ids, p);
    var init := ids[..|ids| - 1];
    UpdatePerWatcher(files, init, p);
    if j < |ids| - 1 {
      UpdatesAreAligned(files, init, p, j);
    } else {
      ListsStayAligned(files[SessionPath(ids[j])].data.session, p, 0);
    }
  }

  /** A session watching two of the written paths gets two updates that expect the same version, so
      the leader refuses the request at the second one. */
  lemma TwoTriggersClash(c: Tree, z1: ZNode, z2: ZNode)
    requires z1.path == z2.path && z1.version == z2.version && z1.version != -1
    ensures CheckUpdates(c, [z1, z2]).0.Err?
  {
    assert [z1, z2][1..] == [z2];
    assert [z2][1..] == [];
  }
}
