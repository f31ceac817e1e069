/** Well-formed znode trees: parents and child lists match. */
module ZnodeTrees {
  import opened Znodes
  import opened ZnodeAgreement

  function Count(names: seq<string>, name: string): nat {
    if names == [] then 0 else (if names[0] == name then 1 else 0) + Count(names[1..], name)
  }

  /** The znode has a parent that lists it once. The session directory need not be listed. */
  ghost predicate HasParent(c: Tree, p: Path) {
    && Dir(p) in c
    && var n := Count(c[Dir(p)].children, Base(p)); n == 1 || (n == 0 && p == [SESSION_DIR])
  }

  ghost predicate AllHaveParents(c: Tree) {
    forall p :: p in c && p != [] ==> HasParent(c, p)
  }

  ghost predicate ListedExist(c: Tree) {
    forall p, name :: p in c && name in c[p].children ==> p + [name] in c
  }

  ghost predicate EphemeralsAreLeaves(c: Tree) {
    forall p :: p in c && c[p].ephemeral != "" ==> c[p].children == []
  }

  /** Every listed child exists, every znode is listed exactly once in its parent, and no ephemeral
      znode has children. */
  ghost predicate WellFormed(c: Tree) {
    [] in c && AllHaveParents(c) && ListedExist(c) && EphemeralsAreLeaves(c)
  }

  lemma {:induction false} CountIn(names: seq<string>, name: string)
    ensures Count(names, name) > 0 <==> name in names
  {
    if names != [] {
      CountIn(names[1..], name);
      assert names == [names[0]] + names[1..];
    }
  }

  lemma {:induction false} CountAppend(names: seq<string>, other: string, name: string)
    ensures Count(names + [other], name) == Count(names, name) + (if other == name then 1 else 0)
  {
    if names == [] {
      assert names + [other] == [other];
    } else {
      assert (names + [other])[1..] == names[1..] + [other];
      CountAppend(names[1..], other, name);
    }
  }

  lemma {:induction false} CountWithout(names: seq<string>, gone: string, name: string)
    ensures Count(Without(names, gone), name) ==
      if gone == name && name in names then Count(names, name) - 1 else Count(names, name)
  {
    if names != [] {
      assert names == [names[0]] + names[1..];
      CountWithout(names[1..], gone, name);
      CountIn(names, name);
    }
  }

  /** Only data and version of one znode differ. */
  lemma SameShape(c: Tree, p: Path, n: ZNode)
    requires WellFormed(c) && p in c && n.children == c[p].children && n.ephemeral == c[p].ephemeral
    ensures WellFormed(c[p := n])
  {
    hide Dir, Base, Count;
    var c' := c[p := n];
    forall q | q in c' && q != [] ensures HasParent(c', q) {
      assert HasParent(c, q);
    }
  }

  lemma ChildPath(p: Path, name: string)
    ensures Dir(p + [name]) == p && Base(p + [name]) == name
  {
  }

  lemma PathParts(p: Path)
    requires p != []
    ensures p == Dir(p) + [Base(p)]
  {
  }

  /** `c'` has one more leaf, listed last in its parent. */
  ghost predicate Grown(c: Tree, c': Tree, par: Path, name: string) {
    && par in c && par + [name] !in c && c'.Keys == c.Keys + {par + [name]}
    && c'[par + [name]].children == []
    && forall x :: x in c ==>
         && c'[x].children == (if x == par then c[x].children + [name] else c[x].children)
         && c'[x].ephemeral == c[x].ephemeral
  }

  lemma AddedIsGrown(c: Tree, z: ZNode)
    requires z.path !in c && Dir(z.path) in c && z.children == [] && [] in c
    ensures Grown(c, Added(c, z), Dir(z.path), Base(z.path))
  {
    PathParts(z.path);
    hide Dir, Base;
  }

  lemma GrownWellFormed(c: Tree, c': Tree, par: Path, name: string)
    requires WellFormed(c) && Grown(c, c', par, name) && c[par].ephemeral == ""
    ensures WellFormed(c')
  {
    GrownParents(c, c', par, name);
    GrownListed(c, c', par, name);
    hide AllHaveParents, ListedExist;
  }

  lemma GrownParents(c: Tree, c': Tree, par: Path, name: string)
    requires AllHaveParents(c) && ListedExist(c) && Grown(c, c', par, name)
    ensures AllHaveParents(c')
  {
    CountIn(c[par].children, name);
    CountAppend(c[par].children, name, name);
    ChildPath(par, name);
    assert HasParent(c', par + [name]);
    hide ListedExist;
    forall p | p in c' && p != [] ensures HasParent(c', p) {
      if p != par + [name] {
        StillHasParent(c, c', p, par, name);
      }
    }
  }

  /** A new sibling of another name does not matter. */
  lemma StillHasParent(c: Tree, c': Tree, p: Path, par: Path, name: string)
    requires AllHaveParents(c) && p in c && p != [] && Grown(c, c', par, name)
    ensures HasParent(c', p)
  {
    assert HasParent(c, p);
    PathParts(p);
    hide Dir, Base, Count, AllHaveParents;
    if Dir(p) == par {
      CountAppend(c[par].children, name, Base(p));
    }
  }

  lemma GrownListed(c: Tree, c': Tree, par: Path, name: string)
    requires ListedExist(c) && Grown(c, c', par, name)
    ensures ListedExist(c')
  {
    forall p, n | p in c' && n in c'[p].children ensures p + [n] in c' {
      if p in c && !(p == par && n == name) {
        assert n in c[p].children;
      }
    }
  }

  lemma HasRoot(c: Tree)
    requires WellFormed(c)
    ensures [] in c
  {
  }

  /** An accepted create keeps the tree well formed. */
  lemma CreateWellFormed(c: Tree, z: ZNode)
    requires WellFormed(c) && CheckCreate(c, z).0.Ok? && z.children == []
    ensures WellFormed(CheckCreate(c, z).1)
  {
    hide Dir, Base, Added, WellFormed;
    var c1 := c;
    if z.ephemeral != "" {
      var s := SessionPath(z.ephemeral);
      SameShape(c, s, Registered(c[s], z.path));
      c1 := c[s := Registered(c[s], z.path)];
    }
    HasRoot(c1);
    AddedIsGrown(c1, z);
    hide Grown;
    GrownWellFormed(c1, Added(c1, z), Dir(z.path), Base(z.path));
  }

  lemma UpdateWellFormed(c: Tree, z: ZNode)
    requires WellFormed(c)
    ensures WellFormed(CheckUpdate(c, z).1)
  {
    hide WellFormed;
    if CheckUpdate(c, z).0.Ok? {
      SameShape(c, z.path, CheckUpdate(c, z).1[z.path]);
    }
  }

  lemma {:induction false} UpdatesWellFormed(c: Tree, zs: seq<ZNode>)
    requires WellFormed(c)
    ensures WellFormed(CheckUpdates(c, zs).1)
    decreases |zs|
  {
    hide WellFormed;
    if zs != [] {
      UpdateWellFormed(c, zs[0]);
      UpdatesWellFormed(CheckUpdate(c, zs[0]).1, zs[1..]);
    }
  }

  /** So does an accepted delete, exactly if it removes a childless znode other than the root; and
      on a well-formed tree it never panics. */
  lemma DeleteWellFormed(c: Tree, z: ZNode)
    requires WellFormed(c) && CheckDelete(c, z).0 != Err(ExistsError) && CheckDelete(c, z).0 != Err(VersionError)
    ensures CheckDelete(c, z).0.Ok?
    ensures WellFormed(CheckDelete(c, z).1) <==> z.path != [] && Childless(c, z.path)
  {
    var p := z.path;
    assert p != [] ==> HasParent(c, p);
    var c' := CheckDelete(c, z).1;
    if p == [] {
      assert [] !in c';
    } else if Childless(c, p) {
      UnlistedIsShrunk(c, p);
      ShrunkWellFormed(c, c', Dir(p), Base(p));
    } else {
      var q :| q in c && Below(p, q);
      OrphanLeft(c, p, q);
    }
  }

  /** `c'` has one leaf less, no longer listed in its parent. */
  ghost predicate Shrunk(c: Tree, c': Tree, par: Path, name: string) {
    && par in c && par + [name] in c && Childless(c, par + [name]) && c'.Keys == c.Keys - {par + [name]}
    && forall x :: x in c' ==>
         && c'[x].children == (if x == par then Without(c[x].children, name) else c[x].children)
         && c'[x].ephemeral == c[x].ephemeral
  }

  lemma UnlistedIsShrunk(c: Tree, p: Path)
    requires p in c && p != [] && Childless(c, p) && Dir(p) in c
    ensures Shrunk(c, Unlisted(c, p), Dir(p), Base(p)) && p == Dir(p) + [Base(p)]
  {
    PathParts(p);
    assert Dir(p) != p;
    hide Dir, Base, Without, Childless;
  }

  lemma ShrunkWellFormed(c: Tree, c': Tree, par: Path, name: string)
    requires WellFormed(c) && Shrunk(c, c', par, name)
    ensures WellFormed(c')
  {
    ShrunkParents(c, c', par, name);
    ShrunkListed(c, c', par, name);
    WithoutNone(name);
    hide AllHaveParents, ListedExist, Childless, Without;
  }

  lemma ShrunkParents(c: Tree, c': Tree, par: Path, name: string)
    requires AllHaveParents(c) && Shrunk(c, c', par, name)
    ensures AllHaveParents(c')
  {
    hide Without, Count;
    forall p | p in c' && p != [] ensures HasParent(c', p) {
      assert HasParent(c, p);
      PathParts(p);
      BelowParent(p);
      assert Dir(p) in c';
      if Dir(p) == par {
        CountWithout(c[par].children, name, Base(p));
      }
    }
  }

  lemma ShrunkListed(c: Tree, c': Tree, par: Path, name: string)
    requires AllHaveParents(c) && ListedExist(c) && Shrunk(c, c', par, name)
    ensures ListedExist(c')
  {
    ChildPath(par, name);
    assert HasParent(c, par + [name]);
    assert Count(c[par].children, name) <= 1;
    hide Without, Count, HasParent, AllHaveParents, Childless;
    forall p, n | p in c' && n in c'[p].children ensures p + [n] in c' {
      if p == par {
        CountWithout(c[par].children, name, n);
        CountIn(c[par].children, n);
        CountIn(c'[par].children, n);
      }
      assert p + [n] in c;
      ChildPath(p, n);
    }
  }

  lemma WithoutNone(name: string)
    ensures Without([], name) == []
  {
  }

  lemma BelowParent(q: Path)
    requires q != []
    ensures Below(Dir(q), q)
  {
  }

  /** Some znode right below a deleted one is left without a parent. */
  lemma {:induction false} OrphanLeft(c: Tree, p: Path, q: Path)
    requires WellFormed(c) && p in c && p != [] && Dir(p) in c && q in c && Below(p, q)
    ensures !WellFormed(Unlisted(c, p))
    decreases |q|
  {
    assert HasParent(c, q);
    var c' := Unlisted(c, p);
    assert q in c';
    if Dir(q) == p {
      assert !HasParent(c', q);
    } else {
      assert Below(p, Dir(q));
      OrphanLeft(c, p, Dir(q));
    }
  }
}
