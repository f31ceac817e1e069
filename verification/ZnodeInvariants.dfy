/** The cached tree over whole runs of requests. */
module ZnodeInvariants {
  import SeqNames
  import opened Znodes
  import opened ZnodeAgreement
  import opened ZnodeRuns
  import opened ZnodeTrees

  /** A create never brings children along. */
  predicate PlainCreate(req: WriteRequest) {
    req.kind == Create && req.znodes != [] ==> req.znodes[0].children == []
  }

  /** Every orderly request keeps the cached tree well formed, accepted or not. */
  lemma CheckKeepsTree(c: Tree, a: Arrival)
    requires WellFormed(c) && Orderly(c, a) && PlainCreate(a.req)
    ensures WellFormed(Check(c, a.storage, a.req).1)
  {
    hide WellFormed, Dir, Base, SequentialPath, CheckCreate, CheckUpdate, CheckUpdates, CheckDelete, Childless;
    match a.req.kind
    case Create =>
      if a.req.znodes != [] && !(a.req.znodes[0].sequential && Dir(a.req.znodes[0].path) !in c) {
        var z := a.req.znodes[0];
        var named := if z.sequential then z.(path := SequentialPath(c, z.path)) else z;
        if CheckCreate(c, named).0.Ok? {
          CreateWellFormed(c, named);
        } else {
          RefusedCreate(c, named);
        }
      }
    case SetData => if a.req.znodes != [] { UpdateWellFormed(c, a.req.znodes[0]); }
    case WatchTrigger => UpdatesWellFormed(c, a.req.znodes);
    case Delete =>
      if a.req.znodes != [] {
        if CheckDelete(c, a.req.znodes[0]).0.Ok? {
          DeleteWellFormed(c, a.req.znodes[0]);
        } else {
          RefusedDelete(c, a.req.znodes[0]);
        }
      }
    case Unknown =>
  }

  lemma RefusedCreate(c: Tree, z: ZNode)
    requires !CheckCreate(c, z).0.Ok?
    ensures CheckCreate(c, z).1 == c
  {
  }

  lemma RefusedDelete(c: Tree, z: ZNode)
    requires !CheckDelete(c, z).0.Ok?
    ensures CheckDelete(c, z).1 == c
  {
  }

  predicate AllPlain(run: seq<Arrival>) {
    run == [] || (AllPlain(run[..|run| - 1]) && PlainCreate(run[|run| - 1].req))
  }

  lemma {:induction false} RunKeepsTree(c: Tree, run: seq<Arrival>)
    requires WellFormed(c) && AllOrderly(Leader(c, []), run) && AllPlain(run)
    ensures WellFormed(HandleAll(Leader(c, []), run).cache)
    decreases |run|
  {
    hide WellFormed, Check, Orderly;
    if run != [] {
      RunKeepsTree(c, run[..|run| - 1]);
      CheckKeepsTree(HandleAll(Leader(c, []), run[..|run| - 1]).cache, run[|run| - 1]);
    }
  }

  /** Of what was there only one znode differs. */
  ghost predicate OnlyGrows(c: Tree, c': Tree, p: Path) {
    forall x :: x in c ==> x in c' && (x != p ==> c'[x] == c[x])
  }

  /** On a well-formed tree the name of a sequential create is always free, so under an existing
      parent, as long as numbers have not run out, it is accepted exactly if the parent is not
      ephemeral, the version is 0, and the session of an ephemeral znode is there. */
  lemma SequentialCreateAccepted(c: Tree, storage: Tree, req: WriteRequest)
    requires WellFormed(c) && req.kind == Create && req.znodes != [] && req.znodes[0].sequential
    requires var z := req.znodes[0];
             Dir(z.path) in c && SeqNames.MaxSeq(c[Dir(z.path)].children, Base(z.path)) < SeqNames.MAX_INT
    ensures var z := req.znodes[0];
            var q, s := SequentialPath(c, z.path), SessionPath(z.ephemeral);
            var (r, c') := Check(c, storage, req);
            && q !in c
            && (r.Ok? <==> c[Dir(z.path)].ephemeral == "" && z.version == 0
                           && (z.ephemeral == "" || (s in c && c[s].data.SessionData?)))
            && (r.Ok? ==>
                 && r.value.znodes[0].path == q && q in c'
                 && Dir(z.path) in c' && c'[Dir(z.path)].children == c[Dir(z.path)].children + [Base(q)]
                 && c'[Dir(z.path)].ephemeral == "")
            && (r.Ok? && z.ephemeral == "" ==> OnlyGrows(c, c', Dir(z.path)))
  {
    var z := req.znodes[0];
    SequentialPathIsFree(c, z.path);
    var q := SequentialPath(c, z.path);
    hide WellFormed, SequentialPath, SeqNames.MaxSeq, Base, OnlyGrows;
    CreateAtFreePath(c, z.(path := q));
    hide CheckCreate, Dir;
  }

  lemma SequentialPathIsFree(c: Tree, p: Path)
    requires WellFormed(c) && Dir(p) in c && SeqNames.MaxSeq(c[Dir(p)].children, Base(p)) < SeqNames.MAX_INT
    ensures SequentialPath(c, p) !in c && Dir(SequentialPath(c, p)) == Dir(p)
  {
    var par, q := Dir(p), SequentialPath(c, p);
    var name := SeqNames.NextName(c[par].children, Base(p));
    SeqNames.SequentialIsFresh(c[par].children, Base(p));
    ChildPath(par, name);
    var number := SeqNames.Wrap(SeqNames.MaxSeq(c[par].children, Base(p)) + 1);
    assert name != SESSION_DIR by { SequentialIsNotSessionDir(Base(p), number); }
    if q in c {
      assert HasParent(c, q);
      CountIn(c[par].children, name);
      assert false;
    }
  }

  lemma CreateAtFreePath(c: Tree, z: ZNode)
    requires z.path !in c && Dir(z.path) in c
    ensures var s := SessionPath(z.ephemeral);
            var (r, c') := CheckCreate(c, z);
            && (r.Ok? <==> c[Dir(z.path)].ephemeral == "" && z.version == 0
                           && (z.ephemeral == "" || (s in c && c[s].data.SessionData?)))
            && (r.Ok? ==>
                 && r.value == z.(version := 1) && z.path in c' && Dir(z.path) in c'
                 && c'[Dir(z.path)].children == c[Dir(z.path)].children + [Base(z.path)]
                 && c'[Dir(z.path)].ephemeral == "")
            && (r.Ok? && z.ephemeral == "" ==> OnlyGrows(c, c', Dir(z.path)))
  {
    hide Dir, Base;
  }

  lemma SequentialIsNotSessionDir(base: string, n: int)
    ensures SeqNames.Numbered(base, n) != SESSION_DIR
  {
    var s := SeqNames.Numbered(base, n);
    assert s[|base|] == '_';
  }
}
