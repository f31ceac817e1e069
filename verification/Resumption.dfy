/** A client comes back to its session on another server: which of its watches go on, which it is told
    about, and what becomes of the session's lists. */
module Resumption {
  import opened Wrappers
  import opened Znodes
  import opened ZnodeTrees
  import opened ZnodeRuns
  import opened Watch

  /** The pairs whose path is stored at the version it is watched at, or the other ones. */
  function Matching(files: Tree, pairs: seq<(Path, int)>, current: bool): seq<Path> {
    if pairs == [] then []
    else
      var init, last := Matching(files, pairs[..|pairs| - 1], current), pairs[|pairs| - 1];
      if (VersionOf(files, last.0) == last.1) == current then init + [last.0] else init
  }

  lemma {:induction false} PairsLast<T>(w: seq<T>, v: seq<int>)
    requires |w| == |v| && w != []
    ensures Pairs(w, v) == Pairs(w[..|w| - 1], v[..|w| - 1]) + [(w[|w| - 1], v[|w| - 1])]
  {
    PairsAppend(w[..|w| - 1], v[..|w| - 1], w[|w| - 1], v[|w| - 1]);
    assert w[..|w| - 1] + [w[|w| - 1]] == w && v[..|w| - 1] + [v[|w| - 1]] == v;
  }

  /** Only as many versions as paths are looked at. */
  lemma {:induction false} SiftIsPrefix(files: Tree, w: seq<Path>, v: seq<int>)
    requires |w| <= |v|
    ensures Sift(files, w, v) == Sifted(Matching(files, Pairs(w, v[..|w|]), true), Matching(files, Pairs(w, v[..|w|]), false), true)
    decreases |w|
  {
    if w != [] {
      var n := |w| - 1;
      SiftIsPrefix(files, w[..n], v);
      PairsLast(w, v[..|w|]);
      assert v[..|w|][..n] == v[..n];
    }
  }

  lemma {:induction false} RegisteredOften(w: Watchers, id: string, paths: seq<Path>, p: Path, other: string)
    ensures Count(WatchersOf(RegisteredAt(w, id, paths), p), other)
      == Count(WatchersOf(w, p), other) + (if other == id then Times(paths, p) else 0)
  {
    if paths != [] {
      var init, last := paths[..|paths| - 1], paths[|paths| - 1];
      RegisteredOften(w, id, init, p, other);
      CountJoin(WatchersOf(RegisteredAt(w, id, init), p), [id], other);
      hide WatchersOf;
      OneMoreWatcher(RegisteredAt(w, id, init), last, id, p);
    }
  }

  lemma OneMoreWatcher(w: Watchers, q: Path, id: string, p: Path)
    ensures WatchersOf(w[q := WatchersOf(w, q) + [id]], p) == if p == q then WatchersOf(w, p) + [id] else WatchersOf(w, p)
  {
  }

  function Times(paths: seq<Path>, p: Path): nat {
    if paths == [] then 0 else Times(paths[..|paths| - 1], p) + (if paths[|paths| - 1] == p then 1 else 0)
  }

  lemma {:induction false} MatchingCovers(files: Tree, pairs: seq<(Path, int)>)
    ensures |Matching(files, pairs, true)| + |Matching(files, pairs, false)| == |pairs|
  {
    if pairs != [] { MatchingCovers(files, pairs[..|pairs| - 1]); }
  }

  // ---- One return ----

  predicate HasLists(files: Tree, id: string) {
    SessionPath(id) in files && files[SessionPath(id)].data.SessionData? && Aligned(files[SessionPath(id)].data.session)
  }

  function Unchanged(files: Tree, id: string): seq<Path>
    requires HasLists(files, id)
  {
    Matching(files, PairsOf(files[SessionPath(id)].data.session), true)
  }

  function Changed(files: Tree, id: string): seq<Path>
    requires HasLists(files, id)
  {
    Matching(files, PairsOf(files[SessionPath(id)].data.session), false)
  }

  /** A session that comes back is registered once for each of its watches whose znode is unchanged, and
      for nothing else. */
  lemma ResumeRegisters(w: Watchers, files: Tree, id: string, p: Path, other: string)
    requires HasLists(files, id)
    ensures ResumeWatch(w, files, id).0.Ok?
    ensures Count(WatchersOf(ResumeWatch(w, files, id).1, p), other)
      == Count(WatchersOf(w, p), other) + (if other == id then Times(Unchanged(files, id), p) else 0)
  {
    var s := files[SessionPath(id)].data.session;
    SiftIsPrefix(files, s.watchlist, s.versionlist);
    assert s.versionlist[..|s.watchlist|] == s.versionlist;
    RegisteredOften(w, id, Unchanged(files, id), p, other);
    hide Sift, RegisteredAt, Matching, Times, WatchersOf;
  }

  /** When picking up a session succeeds: there must be such a session, with a version for each path. */
  lemma WhenResumed(w: Watchers, files: Tree, id: string)
    ensures var (r, w') := ResumeWatch(w, files, id);
            var q := SessionPath(id);
            if q !in files then r == Err(ExistsError) && w' == w
            else if !files[q].data.SessionData? then r == Err(CriticalError) && w' == w
            else if |files[q].data.session.watchlist| <= |files[q].data.session.versionlist| then r.Ok?
            else r.Panic?
  {
    var q := SessionPath(id);
    if q in files && files[q].data.SessionData? { WhenWhole(files, files[q].data.session.watchlist, files[q].data.session.versionlist); }
    hide Sift, RegisteredAt;
  }

  lemma {:induction false} WhenWhole(files: Tree, watchlist: seq<Path>, versionlist: seq<int>)
    ensures Sift(files, watchlist, versionlist).whole <==> |watchlist| <= |versionlist|
  {
    if watchlist != [] { WhenWhole(files, watchlist[..|watchlist| - 1], versionlist); }
  }

  /** The paths the client is told about. */
  function Told(r: Result<Option<(WriteRequest, seq<Path>)>>): seq<Path> {
    if r.Ok? && r.value.Some? then r.value.value.1 else []
  }

  /** The client hears of every znode that changed exactly if one of those it watches did not, or none
      did. */
  lemma WhenTold(w: Watchers, files: Tree, id: string)
    requires HasLists(files, id)
    ensures Told(ResumeWatch(w, files, id).0) == Changed(files, id) <==> Unchanged(files, id) != [] || Changed(files, id) == []
    ensures Unchanged(files, id) == [] ==> Told(ResumeWatch(w, files, id).0) == []
    ensures |Unchanged(files, id)| + |Changed(files, id)| == |files[SessionPath(id)].data.session.watchlist|
  {
    var s := files[SessionPath(id)].data.session;
    SiftIsPrefix(files, s.watchlist, s.versionlist);
    assert s.versionlist[..|s.watchlist|] == s.versionlist;
    MatchingCovers(files, PairsOf(s));
    PairsLength(s.watchlist, s.versionlist);
    hide Sift, RegisteredAt, Matching, Pairs;
  }

  lemma {:induction false} PairsLength<T>(w: seq<T>, v: seq<int>)
    requires |w| == |v|
    ensures |Pairs(w, v)| == |w|
  {
    if w != [] { PairsLength(w[1..], v[1..]); }
  }

  /** The session's znode after the update that a return asks for. */
  predicate Shortened(before: ZNode, after: ZNode, kept: seq<Path>) {
    && after.path == before.path && after.version == before.version && before.data.SessionData?
    && after.data == SessionData(before.data.session.(watchlist := kept))
  }

  /** The update names the session's stored version and leaves the unchanged paths, but every version:
      the lists stay aligned exactly if nothing changed, and then the session stays as it is. */
  lemma ResumeAsks(w: Watchers, files: Tree, id: string)
    requires HasLists(files, id) && Unchanged(files, id) != []
    requires files[SessionPath(id)].path == SessionPath(id)
    ensures var (r, before) := (ResumeWatch(w, files, id).0, files[SessionPath(id)]);
            && r.Ok? && r.value.Some? && r.value.value.0.kind == SetData && |r.value.value.0.znodes| == 1
            && var z := r.value.value.0.znodes[0];
              && Shortened(before, z, Unchanged(files, id))
              && (Aligned(z.data.session) <==> Changed(files, id) == []) && (Aligned(z.data.session) <==> z.data == before.data)
  {
    var s := files[SessionPath(id)].data.session;
    SiftIsPrefix(files, s.watchlist, s.versionlist);
    assert s.versionlist[..|s.watchlist|] == s.versionlist;
    MatchingCovers(files, PairsOf(s));
    PairsLength(s.watchlist, s.versionlist);
    NoneChanged(files, s.watchlist, s.versionlist);
    hide Sift, RegisteredAt, Matching, Pairs;
  }

  lemma {:induction false} NoneChanged(files: Tree, w: seq<Path>, v: seq<int>)
    requires |w| == |v|
    ensures Matching(files, Pairs(w, v), false) == [] ==> Matching(files, Pairs(w, v), true) == w
    decreases |w|
  {
    if w != [] {
      PairsLast(w, v);
      NoneChanged(files, w[..|w| - 1], v[..|w| - 1]);
      assert w[..|w| - 1] + [w[|w| - 1]] == w;
    }
  }

  // ---- The next return ----

  /** The versions of the watched paths are as they were. */
  predicate SameVersions(files: Tree, files': Tree, paths: seq<Path>) {
    forall p <- paths :: VersionOf(files', p) == VersionOf(files, p)
  }

  /** If nothing changes before the next return either, the watches that go on are the same again exactly
      if each stands at a place whose old version is its own. */
  lemma ResumedAgain(files: Tree, files': Tree, id: string)
    requires HasLists(files, id) && SessionPath(id) in files'
    requires Shortened(files[SessionPath(id)], files'[SessionPath(id)].(version := files[SessionPath(id)].version), Unchanged(files, id))
    requires SameVersions(files, files', Unchanged(files, id))
    ensures var (s, kept) := (files'[SessionPath(id)].data.session, Unchanged(files, id));
            var again := Sift(files', s.watchlist, s.versionlist);
            && again.whole
            && (again.kept == kept <==>
                  forall j :: 0 <= j < |kept| ==> VersionOf(files, kept[j]) == files[SessionPath(id)].data.session.versionlist[j])
  {
    var (s, kept) := (files'[SessionPath(id)].data.session, Unchanged(files, id));
    var v := files[SessionPath(id)].data.session.versionlist;
    MatchingCovers(files, PairsOf(files[SessionPath(id)].data.session));
    PairsLength(files[SessionPath(id)].data.session.watchlist, v);
    SiftIsPrefix(files', kept, v);
    AllMatch(files', kept, v[..|kept|]);
    hide Sift, Matching, Pairs;
  }

  /** Everything is kept exactly if every path is at its version. */
  lemma {:induction false} AllMatch(files: Tree, w: seq<Path>, v: seq<int>)
    requires |w| == |v|
    ensures Matching(files, Pairs(w, v), true) == w <==> forall j :: 0 <= j < |w| ==> VersionOf(files, w[j]) == v[j]
    decreases |w|
  {
    if w != [] {
      var n := |w| - 1;
      PairsLast(w, v);
      AllMatch(files, w[..n], v[..n]);
      MatchingCovers(files, Pairs(w[..n], v[..n]));
      PairsLength(w[..n], v[..n]);
      assert w[..n] + [w[n]] == w;
      hide Pairs;
      if Matching(files, Pairs(w, v), true) == w { assert |w| == n + 1; }
    }
  }

  /** A session watches two paths, the first one changes, and the second one is not at the version that
      the first one was watched at: after its first return, applied, the second return finds nothing to
      watch and tells the client nothing, although nothing has changed in between. */
  lemma LostOnSecondReturn(w: Watchers, files: Tree, id: string, a: Path, b: Path, c: Tree, storage: Tree, w': Watchers)
    requires HasLists(files, id) && files[SessionPath(id)].path == SessionPath(id)
    requires var s := files[SessionPath(id)].data.session;
             && s.watchlist == [a, b] && VersionOf(files, a) != s.versionlist[0] && VersionOf(files, b) == s.versionlist[1]
             && s.versionlist[0] != s.versionlist[1] && b != SessionPath(id)
    ensures var r := ResumeWatch(w, files, id).0;
            && r.Ok? && r.value.Some? && r.value.value.1 == [a]
            && (Check(c, storage, r.value.value.0).0.Ok? ==>
                 var files' := Write(files, Check(c, storage, r.value.value.0).0.value).1;
                 ResumeWatch(w', files', id) == (Ok(None), w'))
  {
    var s, q := files[SessionPath(id)].data.session, SessionPath(id);
    TwoSifted(files, a, b, s.versionlist);
    var r := ResumeWatch(w, files, id).0;
    var z := r.value.value.0.znodes[0];
    if Check(c, storage, r.value.value.0).0.Ok? {
      var files' := Write(files, Check(c, storage, r.value.value.0).0.value).1;
      assert files'[q].data == z.data && VersionOf(files', b) == VersionOf(files, b);
      OneSifted(files', b, s.versionlist);
    }
  }

  lemma TwoSifted(files: Tree, a: Path, b: Path, v: seq<int>)
    requires |v| == 2 && VersionOf(files, a) != v[0] && VersionOf(files, b) == v[1]
    ensures Sift(files, [a, b], v) == Sifted([b], [a], true)
  {
    assert [a, b][..1] == [a] && [a][..0] == [];
    assert Sift(files, [a], v) == Sifted([], [a], true);
  }

  lemma OneSifted(files: Tree, b: Path, v: seq<int>)
    requires |v| == 2 && VersionOf(files, b) != v[0]
    ensures Sift(files, [b], v) == Sifted([], [b], true)
  {
    assert [b][..0] == [];
  }
}
