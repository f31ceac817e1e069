/** The leader's cache and the storage that applies the accepted requests agree: an accepted request
    never fails on a replica, and says when exactly cache and storage drift apart. */
module ZnodeAgreement {
  import opened Wrappers
  import opened Znodes

  /** The same paths hold the same data, and the same versions if `versions` asks for them. */
  ghost predicate Alike(c: Tree, s: Tree, versions: bool) {
    && c.Keys == s.Keys
    && (forall p :: p in c.Keys ==> AlikeAt(c[p], s[p], versions))
  }

  predicate AlikeAt(n: ZNode, m: ZNode, versions: bool) {
    n.data == m.data && (versions ==> n.version == m.version)
  }

  /** A stored tree has its root, and every znode is stored at its own path. */
  ghost predicate Keyed(s: Tree) {
    [] in s && forall p :: p in s.Keys ==> s[p].path == p
  }

  lemma Put(c: Tree, s: Tree, versions: bool, p: Path, n: ZNode, m: ZNode)
    requires Alike(c, s, versions) && AlikeAt(n, m, versions)
    ensures Alike(c[p := n], s[p := m], versions)
  {
  }

  lemma PutKeyed(s: Tree, m: ZNode)
    requires Keyed(s)
    ensures Keyed(WriteOp(s, m))
  {
  }

  /** Storage adds the parent's child before the znode, the cache after it. */
  lemma AddedAgrees(c: Tree, s: Tree, versions: bool, z: ZNode)
    requires Alike(c, s, versions) && Keyed(s) && z.path !in c && Dir(z.path) in c
    ensures Dir(z.path) in s
    ensures var made, par := z.(version := z.version + 1), Dir(z.path);
            var s' := WriteOp(WriteOp(s, WithChild(s[par], Base(z.path))), made);
            && Alike(Added(c, z), s', versions) && Keyed(s') && (c == s ==> Added(c, z) == s')
  {
    hide Dir, Base;
    var made, par := z.(version := z.version + 1), Dir(z.path);
    assert par != z.path;
    var n, m := WithChild(c[par], Base(z.path)), WithChild(s[par], Base(z.path));
    assert AlikeAt(c[par], s[par], versions);
    Put(c, s, versions, z.path, made, made);
    Put(c[z.path := made], s[z.path := made], versions, par, n, m);
    var s' := WriteOp(WriteOp(s, m), made);
    assert s' == s[z.path := made][par := m];
    PutKeyed(s, m);
    PutKeyed(WriteOp(s, m), made);
  }

  /** It does not matter whether the session or the parent is updated first, even if they are the
      same znode. */
  lemma SessionBeforeParent(s: Tree, par: Path, p: Path, name: string, path: Path)
    requires Keyed(s) && par in s && p in s && s[p].data.SessionData?
    ensures var t := s[p := Registered(s[p], path)];
            var s1 := WriteOp(s, WithChild(s[par], name));
            && p in s1 && s1[p].data.SessionData? && par in t && Keyed(t)
            && WriteOp(s1, Registered(s1[p], path)) == WriteOp(t, WithChild(t[par], name))
  {
    var t := s[p := Registered(s[p], path)];
    var s1 := WriteOp(s, WithChild(s[par], name));
    assert s1 == s[par := WithChild(s[par], name)];
    if par == p {
      assert Registered(s1[p], path) == WithChild(t[par], name);
    }
  }

  /** An accepted create: the cache and the storage change alike. */
  lemma CreateAgrees(c: Tree, s: Tree, versions: bool, z: ZNode)
    requires Alike(c, s, versions) && Keyed(s) && CheckCreate(c, z).0.Ok?
    ensures var (r, c') := CheckCreate(c, z);
            var (w, s') := WriteCreate(s, r.value);
            && r.value == z.(version := 1) && w == Ok([z.path]) && Alike(c', s', versions) && Keyed(s') && (c == s ==> c' == s')
  {
    hide Dir, Base, Added, WithChild, Registered;
    var par := Dir(z.path);
    if z.ephemeral == "" {
      AddedAgrees(c, s, versions, z);
    } else {
      var p := SessionPath(z.ephemeral);
      assert AlikeAt(c[p], s[p], versions);
      var n, m := Registered(c[p], z.path), Registered(s[p], z.path);
      RegisteredAlike(c[p], s[p], versions, z.path);
      Put(c, s, versions, p, n, m);
      SessionBeforeParent(s, par, p, Base(z.path), z.path);
      AddedAgrees(c[p := n], s[p := m], versions, z);
    }
  }

  lemma RegisteredAlike(n: ZNode, m: ZNode, versions: bool, path: Path)
    requires AlikeAt(n, m, versions) && n.data.SessionData?
    ensures AlikeAt(Registered(n, path), Registered(m, path), versions)
  {
  }

  // ---- Updates ----

  /** A write replaces the stored znode as a whole. Data stays alike in any case; versions do exactly
      if the request names a version or the znode's version is -1 already; and full equality needs
      the request to repeat the other fields of the znode. */
  lemma UpdateAgrees(c: Tree, s: Tree, versions: bool, z: ZNode)
    requires Alike(c, s, versions) && Keyed(s) && CheckUpdate(c, z).0.Ok?
    ensures var (r, c') := CheckUpdate(c, z);
            var s' := WriteOp(s, r.value);
            && Keyed(s') && Alike(c', s', false)
            && (Alike(c', s', true) <==> (forall p :: p in c && p != z.path ==> c[p].version == s[p].version)
                                         && (z.version == -1 ==> c[z.path].version == -1))
            && (c == s ==> (c' == s' <==> (z.version == -1 ==> c[z.path].version == -1)
                                          && z == c[z.path].(data := z.data, version := z.version)))
  {
    var (r, c') := CheckUpdate(c, z);
    var s' := WriteOp(s, r.value);
    PutKeyed(s, r.value);
    Put(c, s, false, z.path, c'[z.path], r.value);
    assert forall p :: p in c && p != z.path ==> c'[p] == c[p] && s'[p] == s[p];
    if c == s && c'[z.path] == s'[z.path] {
      assert c' == s';
    }
  }

  /** Every update of the list names a version. */
  predicate Explicit(zs: seq<ZNode>) {
    forall i :: 0 <= i < |zs| ==> zs[i].version != -1
  }

  lemma {:induction false} UpdatesAgree(c: Tree, s: Tree, versions: bool, zs: seq<ZNode>)
    requires Alike(c, s, versions) && Keyed(s) && CheckUpdates(c, zs).0.Ok?
    ensures var (r, c') := CheckUpdates(c, zs);
            var s' := WriteAll(s, r.value);
            Keyed(s') && Alike(c', s', versions && Explicit(zs))
    decreases |zs|
  {
    if zs != [] {
      var (r, c1) := CheckUpdate(c, zs[0]);
      var s1 := WriteOp(s, r.value);
      UpdateAgrees(c, s, versions, zs[0]);
      var still := versions && zs[0].version != -1;
      if still { AlikeIsSame(c, s); }
      var (rest, c2) := CheckUpdates(c1, zs[1..]);
      UpdatesAgree(c1, s1, still, zs[1..]);
      ExplicitHead(zs);
      assert [r.value] + rest.value == CheckUpdates(c, zs).0.value;
      assert ([r.value] + rest.value)[1..] == rest.value;
    }
  }

  /** The version that the last update of a path names. */
  function LastNamed(zs: seq<ZNode>, p: Path): Option<int> {
    if zs == [] then None
    else match LastNamed(zs[1..], p)
      case Some(v) => Some(v)
      case None => if zs[0].path == p then Some(zs[0].version) else None
  }

  /** The version stored in the end, next to the one in the cache. */
  lemma {:induction false} FinalVersion(c: Tree, s: Tree, zs: seq<ZNode>, p: Path)
    requires c.Keys == s.Keys && p in c && CheckUpdates(c, zs).0.Ok?
    ensures var (r, c') := CheckUpdates(c, zs);
            var s' := WriteAll(s, r.value);
            && p in c' && p in s'
            && match LastNamed(zs, p)
               case None => s'[p].version == s[p].version && c'[p].version == c[p].version
               case Some(v) => s'[p].version == if v == -1 then -1 else c'[p].version
    decreases |zs|
  {
    if zs != [] {
      var (r, c1) := CheckUpdate(c, zs[0]);
      var s1 := WriteOp(s, r.value);
      assert c1.Keys == s1.Keys == c.Keys;
      FinalVersion(c1, s1, zs[1..], p);
      var rest := CheckUpdates(c1, zs[1..]).0.value;
      assert [r.value] + rest == CheckUpdates(c, zs).0.value;
      assert ([r.value] + rest)[1..] == rest;
    }
  }

  /** After a watch trigger versions agree exactly on the paths whose last update named a version, or
      left the znode at -1, and on the other paths that agreed before. */
  lemma UpdatesAgreeExactly(c: Tree, s: Tree, zs: seq<ZNode>)
    requires Alike(c, s, false) && Keyed(s) && CheckUpdates(c, zs).0.Ok?
    ensures var (r, c') := CheckUpdates(c, zs);
            var s' := WriteAll(s, r.value);
            && c'.Keys == c.Keys
            && (Alike(c', s', true) <==>
                 forall p :: p in c ==>
                   match LastNamed(zs, p)
                   case None => c[p].version == s[p].version
                   case Some(v) => v == -1 ==> c'[p].version == -1)
  {
    var (r, c') := CheckUpdates(c, zs);
    var s' := WriteAll(s, r.value);
    UpdatesAgree(c, s, false, zs);
    UpdatesKeys(c, zs);
    forall p | p in c
      ensures c'[p].version == s'[p].version <==>
        match LastNamed(zs, p) case None => c[p].version == s[p].version case Some(v) => v == -1 ==> c'[p].version == -1
    {
      FinalVersion(c, s, zs, p);
    }
    hide CheckUpdates, WriteAll, LastNamed;
  }

  lemma {:induction false} UpdatesKeys(c: Tree, zs: seq<ZNode>)
    ensures CheckUpdates(c, zs).1.Keys == c.Keys
    decreases |zs|
  {
    if zs != [] { UpdatesKeys(CheckUpdate(c, zs[0]).1, zs[1..]); }
  }

  lemma AlikeKeys(c: Tree, s: Tree, versions: bool)
    requires Alike(c, s, versions)
    ensures c.Keys == s.Keys
  {
  }

  lemma AlikeIsSame(c: Tree, s: Tree)
    requires Alike(c, s, true)
    ensures forall p :: p in c ==> c[p].version == s[p].version
  {
  }

  lemma ExplicitHead(zs: seq<ZNode>)
    requires zs != []
    ensures Explicit(zs) <==> zs[0].version != -1 && Explicit(zs[1..])
  {
    assert zs == [zs[0]] + zs[1..];
  }

  // ---- Deletes ----

  /** The znode has no descendants. */
  ghost predicate Childless(c: Tree, p: Path) {
    forall q :: q in c ==> !Below(p, q)
  }

  /** Storage drops the whole subtree, the cache a single path: they agree exactly on childless
      znodes. A checked delete always finds its parent on a replica. */
  lemma DeleteAgrees(c: Tree, s: Tree, versions: bool, z: ZNode)
    requires Alike(c, s, versions) && Keyed(s) && CheckDelete(c, z).0.Ok?
    ensures var c' := CheckDelete(c, z).1;
            var (w, s') := DeleteOp(s, z.path);
            && w.Ok?
            && (Alike(c', s', versions) <==> Childless(c, z.path))
            && (z.path != [] ==> Keyed(s'))
            && (c == s ==> (c' == s' <==> Childless(c, z.path)))
  {
    hide Dir, Base, Without;
    var p, par := z.path, Dir(z.path);
    var c', s' := CheckDelete(c, z).1, DeleteOp(s, p).1;
    var n, m := c[par].(children := Without(c[par].children, Base(p))), s[par].(children := Without(s[par].children, Base(p)));
    assert c' == c[par := n] - {p};
    assert s' == Removed(s[par := m], p);
    assert AlikeAt(c[par], s[par], versions);
    Put(c, s, versions, par, n, m);
    RemovedAlike(c[par := n], s[par := m], versions, p);
    assert Childless(c[par := n], p) <==> Childless(c, p);
    if p != [] { RootStays(s[par := m], p); }
  }

  lemma RemovedAlike(c: Tree, s: Tree, versions: bool, p: Path)
    requires Alike(c, s, versions) && p in c
    ensures Alike(c - {p}, Removed(s, p), versions) <==> Childless(c, p)
    ensures c == s ==> (c - {p} == Removed(s, p) <==> Childless(c, p))
  {
    var c', s' := c - {p}, Removed(s, p);
    if Childless(c, p) {
      assert c'.Keys == s'.Keys;
    } else {
      var q :| q in c && Below(p, q);
      assert q in c' && q !in s';
    }
  }

  lemma RootStays(s: Tree, p: Path)
    requires Keyed(s) && p != []
    ensures Keyed(Removed(s, p))
  {
  }
}
