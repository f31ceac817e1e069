/** Loading the cache: what is reached from the root and from the session directory through the
    stored child lists, and when that is the whole tree. */
module ZnodeLoading {
  import opened Wrappers
  import opened Znodes
  import opened ZnodeAgreement
  import opened ZnodeTrees

  /** `q` is reached from `p` by following child lists. */
  ghost predicate Listed(s: Tree, p: Path, q: Path)
    decreases |q|
  {
    && |p| < |q| && q in s && Dir(q) in s && Base(q) in s[Dir(q)].children
    && (Dir(q) == p || Listed(s, p, Dir(q)))
  }

  ghost function Reached(s: Tree, p: Path): Tree {
    map q | q in s && Listed(s, p, q) :: s[q]
  }

  /** No list that is followed from `p` names a child without a znode. */
  ghost predicate NothingMissing(s: Tree, p: Path) {
    && p in s
    && forall q, name :: q in s && (q == p || Listed(s, p, q)) && name in s[q].children ==> q + [name] in s
  }

  /** The cache loaded from a storage, whatever state it is in; none if a list names a child without
      a znode. */
  ghost function Loaded(s: Tree): Option<Tree> {
    if [] in s && [SESSION_DIR] in s && NothingMissing(s, []) && NothingMissing(s, [SESSION_DIR]) then
      Some(map[[] := s[[]]][[SESSION_DIR] := s[[SESSION_DIR]]] + Reached(s, []) + Reached(s, [SESSION_DIR]))
    else None
  }

  // ---- Reaching through the first child ----

  /** A step from `p` towards `q`, if the list names it. */
  ghost predicate StepTowards(s: Tree, p: Path, names: seq<string>, q: Path) {
    |p| < |q| && q[..|p|] == p && q[|p|] in names && q[..|p| + 1] in s
  }

  lemma {:induction false} ListedVia(s: Tree, p: Path, q: Path)
    ensures Listed(s, p, q) <==>
      && q in s && p in s && StepTowards(s, p, s[p].children, q)
      && (|q| == |p| + 1 || Listed(s, q[..|p| + 1], q))
    decreases |q|
  {
    if |p| < |q| && q in s {
      if |q| == |p| + 1 {
        assert q[..|p| + 1] == q && Dir(q) == q[..|p|];
      } else {
        var d := Dir(q);
        ListedVia(s, p, d);
        assert d[..|p|] == q[..|p|] && d[|p|] == q[|p|] && d[..|p| + 1] == q[..|p| + 1];
        if |d| == |p| + 1 { assert d[..|p| + 1] == d; }
      }
    }
  }

  /** What is reached from `p` through some of its children. */
  ghost function ReachedVia(s: Tree, p: Path, names: seq<string>): Tree {
    map q | q in s && StepTowards(s, p, names, q) && (|q| == |p| + 1 || Listed(s, q[..|p| + 1], q)) :: s[q]
  }

  lemma ReachedViaAll(s: Tree, p: Path)
    requires p in s
    ensures ReachedVia(s, p, s[p].children) == Reached(s, p)
  {
    forall q | q in s
      ensures Listed(s, p, q) <==> StepTowards(s, p, s[p].children, q) && (|q| == |p| + 1 || Listed(s, q[..|p| + 1], q))
    {
      ListedVia(s, p, q);
    }
  }

  lemma ReachedViaNone(s: Tree, p: Path, c: Tree)
    ensures c + ReachedVia(s, p, []) == c
  {
  }

  /** One more child and everything reached from it. */
  lemma ReachedViaOneMore(s: Tree, p: Path, names: seq<string>, name: string)
    requires p + [name] in s
    ensures var child := p + [name];
            ReachedVia(s, p, names + [name]) == ReachedVia(s, p, names) + map[child := s[child]] + Reached(s, child)
  {
    var child := p + [name];
    forall q | q in s
      ensures q in ReachedVia(s, p, names + [name]) <==> q in ReachedVia(s, p, names) || q == child || Listed(s, child, q)
    {
      ThroughChild(s, p, names, name, q);
    }
    hide Listed, StepTowards;
    SameValues(s, ReachedVia(s, p, names + [name]), ReachedVia(s, p, names), child, Reached(s, child));
  }

  lemma SameValues(s: Tree, whole: Tree, a: Tree, p: Path, b: Tree)
    requires p in s && whole.Keys <= s.Keys && a.Keys <= s.Keys && b.Keys <= s.Keys
    requires forall q :: q in s ==> (q in whole <==> q in a || q == p || q in b)
    requires (forall q :: q in whole ==> whole[q] == s[q]) && (forall q :: q in a ==> a[q] == s[q]) && (forall q :: q in b ==> b[q] == s[q])
    ensures whole == a + map[p := s[p]] + b
  {
  }

  lemma ThroughChild(s: Tree, p: Path, names: seq<string>, name: string, q: Path)
    requires q in s && p + [name] in s
    ensures q in ReachedVia(s, p, names + [name]) <==>
      q in ReachedVia(s, p, names) || q == p + [name] || Listed(s, p + [name], q)
  {
    var child := p + [name];
    ListedVia(s, child, q);
    if |p| < |q| {
      assert q[..|p| + 1] == q[..|p|] + [q[|p|]];
      if |q| == |p| + 1 { assert q[..|p| + 1] == q; }
      if |child| < |q| && q[..|child|] == child { assert q[..|p|] == child[..|p|] == p && q[|p|] == child[|p|]; }
    }
  }

  /** A path is followed without a gap exactly if each of its children is. */
  lemma GapsAreBelow(s: Tree, p: Path)
    requires p in s
    ensures NothingMissing(s, p) <==> forall name :: name in s[p].children ==> p + [name] in s && NothingMissing(s, p + [name])
  {
    if NothingMissing(s, p) {
      forall name | name in s[p].children ensures p + [name] in s && NothingMissing(s, p + [name]) {
        ChildHasNoGap(s, p, name);
      }
    }
    if forall name :: name in s[p].children ==> p + [name] in s && NothingMissing(s, p + [name]) {
      forall q, name | q in s && (q == p || Listed(s, p, q)) && name in s[q].children ensures q + [name] in s {
        if q != p { GapThroughChild(s, p, q, name); }
      }
    }
  }

  lemma GapThroughChild(s: Tree, p: Path, q: Path, name: string)
    requires p in s && q in s && Listed(s, p, q) && name in s[q].children
    requires forall n :: n in s[p].children ==> p + [n] in s && NothingMissing(s, p + [n])
    ensures q + [name] in s
  {
    hide Listed;
    ListedVia(s, p, q);
    var first := q[|p|];
    assert q[..|p| + 1] == p + [first];
    if |q| == |p| + 1 { assert q == q[..|p| + 1]; }
    assert NothingMissing(s, p + [first]);
  }

  lemma ChildHasNoGap(s: Tree, p: Path, name: string)
    requires NothingMissing(s, p) && name in s[p].children
    ensures p + [name] in s && NothingMissing(s, p + [name])
  {
    var child := p + [name];
    assert child in s;
    forall q, n | q in s && (q == child || Listed(s, child, q)) && n in s[q].children ensures q + [n] in s {
      ListedVia(s, p, q);
      ListedVia(s, child, q);
      if q == child {
        assert q[..|p|] == p && q[|p|] == name && q[..|p| + 1] == q;
      } else {
        assert q[..|p| + 1] == child && q[..|p|] == child[..|p|] == p && q[|p|] == child[|p|];
      }
      assert Listed(s, p, q);
    }
  }

  // ---- Termination of the recursive load ----

  ghost function Descendants(s: Tree, p: Path): set<Path> {
    set q | q in s && Below(p, q)
  }

  lemma ChildHasFewer(s: Tree, p: Path, name: string)
    requires p + [name] in s
    ensures |Descendants(s, p + [name])| < |Descendants(s, p)|
  {
    var a, b, child := Descendants(s, p + [name]), Descendants(s, p), p + [name];
    forall q | q in a ensures q in b {
      assert q[..|p|] == q[..|p| + 1][..|p|] == p;
    }
    assert child in b && child !in a;
    assert b == a + (b - a);
  }

  // ---- When loading gives the whole tree ----

  /** Every znode but the two starting points is named in its parent's list, and every list names
      existing znodes. */
  ghost predicate Linked(s: Tree) {
    && [] in s && [SESSION_DIR] in s && ListedExist(s)
    && forall q :: q in s && q != [] && q != [SESSION_DIR] ==> Dir(q) in s && Base(q) in s[Dir(q)].children
  }

  lemma {:induction false} LinkedIsReached(s: Tree, q: Path)
    requires Linked(s) && q in s && q != [] && q != [SESSION_DIR]
    ensures Listed(s, [], q) || Listed(s, [SESSION_DIR], q)
    decreases |q|
  {
    var d := Dir(q);
    if d != [] && d != [SESSION_DIR] {
      LinkedIsReached(s, d);
      if Listed(s, [SESSION_DIR], d) { assert |d| > 1; }
    } else if d == [SESSION_DIR] {
      assert |q| == 2;
    }
  }

  /** The loaded cache is the whole storage exactly if parents and child lists match: a local
      condition on the stored lists. */
  lemma LoadedIsAll(s: Tree)
    ensures Loaded(s) == Some(s) <==> Linked(s)
  {
    if Linked(s) {
      LinkedLoads(s);
    }
    if Loaded(s) == Some(s) {
      LoadedIsLinked(s);
    }
  }

  lemma NoGap(s: Tree, p: Path)
    requires ListedExist(s) && p in s
    ensures NothingMissing(s, p)
  {
    hide Listed;
  }

  lemma LinkedLoads(s: Tree)
    requires Linked(s)
    ensures Loaded(s) == Some(s)
  {
    hide Listed, NothingMissing, ListedExist;
    NoGap(s, []);
    NoGap(s, [SESSION_DIR]);
    LoadedKeys(s);
    forall q | q in s ensures q in Loaded(s).value {
      if q != [] && q != [SESSION_DIR] { LinkedIsReached(s, q); }
    }
    SameTree(Loaded(s).value, s);
  }

  lemma SameTree(c: Tree, s: Tree)
    requires (forall q :: q in s ==> q in c) && (forall q :: q in c ==> q in s && c[q] == s[q])
    ensures c == s
  {
    assert c.Keys == s.Keys;
  }

  /** What the loaded cache holds. */
  lemma LoadedKeys(s: Tree)
    requires Loaded(s).Some?
    ensures var c := Loaded(s).value;
            && (forall q :: q in c <==> q in s && (q == [] || q == [SESSION_DIR] || Listed(s, [], q) || Listed(s, [SESSION_DIR], q)))
            && (forall q :: q in c ==> q in s && c[q] == s[q])
  {
    hide Listed;
  }

  lemma LoadedIsLinked(s: Tree)
    requires Loaded(s) == Some(s)
    ensures Linked(s)
  {
    LoadedKeys(s);
    forall p, name | p in s && name in s[p].children ensures p + [name] in s {
      assert p in Loaded(s).value;
    }
    forall q | q in s && q != [] && q != [SESSION_DIR] ensures Dir(q) in s && Base(q) in s[Dir(q)].children {
      assert q in Loaded(s).value;
    }
  }

  // ---- Storage that stays tidy ----

  /** A stored tree with both starting points, whose znodes are each listed once in their parent. */
  ghost predicate Tidy(s: Tree) {
    [] in s && [SESSION_DIR] in s && AllHaveParents(s) && ListedExist(s)
  }

  lemma TidyLoads(s: Tree)
    requires Tidy(s)
    ensures Loaded(s) == Some(s)
  {
    TidyIsLinked(s);
    LoadedIsAll(s);
  }

  lemma TidyIsLinked(s: Tree)
    requires Tidy(s)
    ensures Linked(s)
  {
    forall q | q in s && q != [] && q != [SESSION_DIR] ensures Dir(q) in s && Base(q) in s[Dir(q)].children {
      assert HasParent(s, q);
      CountIn(s[Dir(q)].children, Base(q));
    }
  }

  /** The names are those of the existing children of `p`, each once; the session directory may be
      missing among them. */
  ghost predicate NamesChildren(s: Tree, p: Path, names: seq<string>) {
    && (forall name :: name in names ==> p + [name] in s)
    && (forall q :: q in s && q != [] && Dir(q) == p ==>
         Count(names, Base(q)) == 1 || (Count(names, Base(q)) == 0 && q == [SESSION_DIR]))
  }

  /** A write that replaces a stored znode keeps the tree tidy exactly if it repeats the znode's
      children; so an update without children is harmless exactly for a childless znode. */
  lemma UpdateTidy(s: Tree, z: ZNode)
    requires Tidy(s) && z.path in s
    ensures Tidy(WriteOp(s, z)) <==> NamesChildren(s, z.path, z.children)
    ensures z.children == [] ==>
      (NamesChildren(s, z.path, []) <==> forall q :: q in s && q != [] && Dir(q) == z.path ==> q == [SESSION_DIR])
  {
    var s', p := WriteOp(s, z), z.path;
    assert s'.Keys == s.Keys;
    if NamesChildren(s, p, z.children) {
      forall q | q in s' && q != [] ensures HasParent(s', q) { assert HasParent(s, q); }
      forall x, name | x in s' && name in s'[x].children ensures x + [name] in s' {
        if x != p { assert name in s[x].children; }
      }
    }
    if Tidy(s') {
      forall q | q in s && q != [] && Dir(q) == p
        ensures Count(z.children, Base(q)) == 1 || (Count(z.children, Base(q)) == 0 && q == [SESSION_DIR])
      {
        assert HasParent(s', q);
      }
      forall name | name in z.children ensures p + [name] in s { assert name in s'[p].children; }
    }
  }

  /** The names are exactly those of the existing children of `p`, in any order and number; the session
      directory may be missing among them. */
  ghost predicate NamesAll(s: Tree, p: Path, names: seq<string>) {
    && (forall name :: name in names ==> p + [name] in s)
    && (forall q :: q in s && q != [] && Dir(q) == p ==> Base(q) in names || q == [SESSION_DIR])
  }

  /** A write that replaces a znode of a storage that loads as a whole leaves one that does exactly if
      it names the same children. */
  lemma UpdateLoads(s: Tree, z: ZNode)
    requires Loaded(s) == Some(s) && z.path in s
    ensures Loaded(WriteOp(s, z)) == Some(WriteOp(s, z)) <==> NamesAll(s, z.path, z.children)
  {
    LoadedIsAll(s);
    LoadedIsAll(WriteOp(s, z));
    hide Loaded;
    UpdateLinked(s, z);
  }

  lemma UpdateLinked(s: Tree, z: ZNode)
    requires Linked(s) && z.path in s
    ensures Linked(WriteOp(s, z)) <==> NamesAll(s, z.path, z.children)
  {
    hide Dir, Base;
    var s', p := WriteOp(s, z), z.path;
    assert s'.Keys == s.Keys;
  }

  // ---- A new storage ----

  /** A znode as a new storage gets it. */
  predicate BaseLike(n: ZNode, p: Path) {
    n.path == p && n.children == [] && n.version == 0 && n.ephemeral == "" && !n.sequential && n.data.Bytes?
  }

  /** Whatever else is stored, a storage that gets its base znodes loads, as these two alone; so it
      loads as a whole exactly if there was nothing else. */
  lemma NewStorageLoads(s: Tree)
    requires [] !in s
    ensures var t := InitBase(s);
            && t.Keys == s.Keys + {[], [SESSION_DIR]} && BaseLike(t[[]], []) && BaseLike(t[[SESSION_DIR]], [SESSION_DIR])
            && (forall p :: p in s && p != [SESSION_DIR] ==> t[p] == s[p])
            && Loaded(t) == Some(map[[] := t[[]], [SESSION_DIR] := t[[SESSION_DIR]]])
            && (Loaded(t) == Some(t) <==> s.Keys <= {[SESSION_DIR]})
  {
    hide Listed, NothingMissing;
    var t := InitBase(s);
    NothingListed(t, []);
    NothingListed(t, [SESSION_DIR]);
    assert Reached(t, []) == map[] && Reached(t, [SESSION_DIR]) == map[];
    var both := map[[] := t[[]], [SESSION_DIR] := t[[SESSION_DIR]]];
    assert map[[] := t[[]]][[SESSION_DIR] := t[[SESSION_DIR]]] + map[] + map[] == both;
    if s.Keys <= {[SESSION_DIR]} { assert both == t; }
  }

  lemma {:induction false} NothingListed(t: Tree, p: Path)
    requires p in t && t[p].children == []
    ensures forall q :: !Listed(t, p, q)
    ensures NothingMissing(t, p)
  {
    forall q ensures !Listed(t, p, q) { ListedVia(t, p, q); }
  }

  /** The storage of a server that starts for the first time. */
  lemma FirstStorage()
    ensures var t := InitBase(map[]);
            t.Keys == {[], [SESSION_DIR]} && Keyed(t) && Tidy(t) && Loaded(t) == Some(t)
  {
    NewStorageLoads(map[]);
    TidyWhenNew(InitBase(map[]));
  }

  lemma TidyWhenNew(t: Tree)
    requires t.Keys == {[], [SESSION_DIR]} && t[[]].children == [] && t[[SESSION_DIR]].children == []
    ensures Tidy(t)
  {
    assert HasParent(t, [SESSION_DIR]);
  }
}
