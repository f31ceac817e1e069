/** Topics over whole runs: messages keep their place while the leader handles other requests, and
    what an update of a topic does to them. */
module Topics {
  import opened Wrappers
  import opened SeqNames
  import opened Znodes
  import opened ZnodeAgreement
  import opened ZnodeRuns
  import opened ZnodeTrees
  import opened ZnodeLoading
  import opened ZnodeInvariants
  import opened ZnodeStorage
  import opened PubSub

  // ---- Requests elsewhere ----

  predicate Within(topic: Path, p: Path) {
    p == topic || Below(topic, p)
  }

  /** The request names no znode of the topic. */
  predicate Elsewhere(topic: Path, req: WriteRequest) {
    && (forall i :: 0 <= i < |req.znodes| ==> !Within(topic, req.znodes[i].path))
    && (req.kind == Create && req.znodes != [] && req.znodes[0].ephemeral != "" ==>
         !Within(topic, SessionPath(req.znodes[0].ephemeral)))
    && (req.kind == Create && req.znodes != [] ==> !Within(topic, Dir(req.znodes[0].path)))
  }

  /** Nothing of the topic differs. */
  ghost predicate Untouched(c: Tree, c': Tree, topic: Path) {
    forall p :: Within(topic, p) ==> (p in c <==> p in c') && (p in c ==> c'[p] == c[p])
  }

  lemma WithinChild(topic: Path, p: Path)
    requires p != [] && Within(topic, p) && p != topic
    ensures Within(topic, Dir(p))
  {
    if |Dir(p)| == |topic| { assert Dir(p) == p[..|topic|]; }
  }

  lemma CreateElsewhere(c: Tree, z: ZNode, topic: Path)
    requires !Within(topic, z.path) && !Within(topic, Dir(z.path))
    requires z.ephemeral != "" ==> !Within(topic, SessionPath(z.ephemeral))
    ensures Untouched(c, CheckCreate(c, z).1, topic)
  {
    hide Within, Dir, Base;
  }

  lemma UpdateElsewhere(c: Tree, z: ZNode, topic: Path)
    requires !Within(topic, z.path)
    ensures Untouched(c, CheckUpdate(c, z).1, topic)
  {
    hide Within;
  }

  lemma {:induction false} UpdatesElsewhere(c: Tree, zs: seq<ZNode>, topic: Path)
    requires forall i :: 0 <= i < |zs| ==> !Within(topic, zs[i].path)
    ensures Untouched(c, CheckUpdates(c, zs).1, topic)
    decreases |zs|
  {
    if zs != [] {
      UpdateElsewhere(c, zs[0], topic);
      forall i | 0 <= i < |zs[1..]| ensures !Within(topic, zs[1..][i].path) { assert zs[1..][i] == zs[i + 1]; }
      UpdatesElsewhere(CheckUpdate(c, zs[0]).1, zs[1..], topic);
      hide Within;
    }
  }

  lemma DeleteElsewhere(c: Tree, z: ZNode, topic: Path)
    requires !Within(topic, z.path) && topic in c && topic != [] && Childless(c, z.path)
    ensures Untouched(c, CheckDelete(c, z).1, topic)
  {
    assert z.path in c ==> !Within(topic, Dir(z.path));
    hide Within, Base, Dir;
  }

  /** A sequential path has the parent of the requested one. */
  lemma SequentialElsewhere(c: Tree, p: Path, topic: Path)
    requires Dir(p) in c && !Within(topic, Dir(p)) && WellFormed(c) && topic in c
    requires MaxSeq(c[Dir(p)].children, Base(p)) < MAX_INT
    ensures Dir(SequentialPath(c, p)) == Dir(p) && !Within(topic, SequentialPath(c, p))
  {
    SequentialPathIsFree(c, p);
    var q := SequentialPath(c, p);
    if Within(topic, q) {
      assert q != topic;
      WithinChild(topic, q);
    }
  }

  /** Numbers have not run out for a sequential create. */
  predicate NumbersLeft(c: Tree, req: WriteRequest) {
    req.kind == Create && req.znodes != [] && req.znodes[0].sequential && Dir(req.znodes[0].path) in c ==>
      MaxSeq(c[Dir(req.znodes[0].path)].children, Base(req.znodes[0].path)) < MAX_INT
  }

  /** An orderly request elsewhere leaves the topic alone, accepted or not. */
  lemma ElsewhereUntouched(c: Tree, a: Arrival, topic: Path)
    requires WellFormed(c) && topic in c && topic != [] && Orderly(c, a) && Elsewhere(topic, a.req) && NumbersLeft(c, a.req)
    ensures Untouched(c, Check(c, a.storage, a.req).1, topic)
  {
    hide WellFormed, Dir, Base, CheckCreate, CheckUpdate, CheckUpdates, CheckDelete, Childless, Within, Untouched;
    hide SequentialPath;
    UntouchedSelf(c, topic);
    match a.req.kind
    case Create =>
      if a.req.znodes != [] {
        var z := a.req.znodes[0];
        if z.sequential {
          if Dir(z.path) in c {
            SequentialElsewhere(c, z.path, topic);
            CreateElsewhere(c, z.(path := SequentialPath(c, z.path)), topic);
          }
        } else {
          CreateElsewhere(c, z, topic);
        }
      }
    case SetData => if a.req.znodes != [] { UpdateElsewhere(c, a.req.znodes[0], topic); }
    case WatchTrigger => UpdatesElsewhere(c, a.req.znodes, topic);
    case Delete => if a.req.znodes != [] { DeleteElsewhere(c, a.req.znodes[0], topic); }
    case Unknown =>
  }

  lemma UntouchedSelf(c: Tree, topic: Path)
    ensures Untouched(c, c, topic)
  {
  }

  // ---- A run of publishing and other requests ----

  /** Every request publishes to the topic or is elsewhere. */
  ghost predicate Minds(c: Tree, a: Arrival, topic: Path) {
    || (exists data :: a.req == Publish(topic, data))
    || (Orderly(c, a) && PlainCreate(a.req) && Elsewhere(topic, a.req) && NumbersLeft(c, a.req))
  }

  ghost predicate AllMind(s: Tree, run: seq<Arrival>, topic: Path)
    decreases |run|
  {
    run == [] ||
    (AllMind(s, run[..|run| - 1], topic) && Minds(HandleAll(Leader(s, []), run[..|run| - 1]).cache, run[|run| - 1], topic))
  }

  lemma PublishIsOrderly(c: Tree, storage: Tree, topic: Path, data: Data)
    ensures Orderly(c, Arrival(Publish(topic, data), storage)) && PlainCreate(Publish(topic, data))
  {
  }

  /** One request: the topic has as many messages as before or one more, and those it had stay. */
  lemma MindedStep(c: Tree, a: Arrival, topic: Path, n: nat) returns (n': nat)
    requires Published(c, topic, n) && n < MAX_INT && topic != [] && Minds(c, a, topic)
    ensures n <= n' <= n + 1 && Published(Check(c, a.storage, a.req).1, topic, n')
    ensures Extends(c, Check(c, a.storage, a.req).1, topic, n) && Orderly(c, a)
  {
    hide WellFormed, MessagePath, Elsewhere, Orderly, Check, Extends, FirstNames;
    if data :| a.req == Publish(topic, data) {
      PublishIsOrderly(c, a.storage, topic, data);
      var r, c' := PublishNext(c, a.storage, topic, n, data);
      n' := n + 1;
    } else {
      n' := n;
      CheckKeepsTree(c, a);
      ElsewhereUntouched(c, a, topic);
      UntouchedStays(c, Check(c, a.storage, a.req).1, topic, n);
    }
  }

  lemma UntouchedStays(c: Tree, c': Tree, topic: Path, n: nat)
    requires Published(c, topic, n) && WellFormed(c') && Untouched(c, c', topic) && n < MAX_INT
    ensures Published(c', topic, n) && Extends(c, c', topic, n)
  {
    PublishedHas(c, topic, n);
    assert Within(topic, topic);
    forall k | 1 <= k <= n
      ensures MessagePath(topic, k) in c && MessagePath(topic, k) in c'
      ensures c[MessagePath(topic, k)].data == c'[MessagePath(topic, k)].data
    {
      MessageWithin(topic, k);
      assert MessagePath(topic, k) in c;
    }
    hide WellFormed, MessagePath, Within, FirstNames;
  }

  lemma MessageWithin(topic: Path, k: int)
    ensures Within(topic, MessagePath(topic, k))
  {
    assert MessagePath(topic, k)[..|topic|] == topic;
  }

  lemma ExtendsFurther(a: Tree, b: Tree, c: Tree, topic: Path, n: nat, m: nat)
    requires n <= m && Extends(a, b, topic, n) && Extends(b, c, topic, m)
    ensures Extends(a, c, topic, n)
  {
    hide MessagePath;
  }

  /** Over any run of publishing and requests elsewhere the messages are numbered without gaps, and
      none is ever changed or lost. */
  lemma {:induction false} RunPublishes(s: Tree, run: seq<Arrival>, topic: Path, n: nat) returns (m: nat)
    requires Published(s, topic, n) && topic != [] && n + |run| < MAX_INT && AllMind(s, run, topic)
    ensures n <= m <= n + |run| && AllOrderly(Leader(s, []), run)
    ensures var c := HandleAll(Leader(s, []), run).cache; Published(c, topic, m) && Extends(s, c, topic, n)
    decreases |run|
  {
    hide Published, Extends, Minds, Orderly, Check;
    if run == [] {
      m := n;
      ExtendsSelf(s, topic, n);
    } else {
      var init, a := run[..|run| - 1], run[|run| - 1];
      var m0 := RunPublishes(s, init, topic, n);
      var c := HandleAll(Leader(s, []), init).cache;
      m := MindedStep(c, a, topic, m0);
      ExtendsFurther(s, c, Check(c, a.storage, a.req).1, topic, n, m0);
    }
  }

  lemma ExtendsSelf(s: Tree, topic: Path, n: nat)
    requires Published(s, topic, n) && n < MAX_INT
    ensures Extends(s, s, topic, n)
  {
    PublishedHas(s, topic, n);
    hide Published, MessagePath;
  }

  lemma {:induction false} MindedPrefix(s: Tree, run: seq<Arrival>, topic: Path, i: nat)
    requires AllMind(s, run, topic) && i <= |run|
    ensures AllMind(s, run[..i], topic)
    decreases |run|
  {
    hide Minds;
    if i < |run| {
      MindedPrefix(s, run[..|run| - 1], topic, i);
      assert run[..|run| - 1][..i] == run[..i];
    } else {
      assert run[..i] == run;
    }
  }

  /** A replica that agrees with the cache on paths and data has the same messages. */
  lemma AlikeMessages(c: Tree, t: Tree, topic: Path, n: nat)
    requires Alike(c, t, false) && HasMessages(c, topic, n)
    ensures HasMessages(t, topic, n) && Extends(c, t, topic, n) && Extends(t, c, topic, n)
  {
    hide MessagePath;
    forall k ensures MessagePath(topic, k) in t <==> 1 <= k <= n {
      assert MessagePath(topic, k) in c.Keys <==> MessagePath(topic, k) in t.Keys;
    }
  }

  /** What a replica that has applied everything accepted up to step i stores. */
  ghost function ReplicaAt(s: Tree, run: seq<Arrival>, i: nat): Result<Tree>
    requires i <= |run|
  {
    Replay(s, HandleAll(Leader(s, []), run[..i]).log)
  }

  lemma ReplicaMessages(s: Tree, run: seq<Arrival>, topic: Path, n: nat, i: nat) returns (m: nat)
    requires Keyed(s) && Published(s, topic, n) && topic != [] && n + |run| < MAX_INT && AllMind(s, run, topic) && i <= |run|
    ensures n <= m <= n + i && ReplicaAt(s, run, i).Ok? && HasMessages(ReplicaAt(s, run, i).value, topic, m)
    ensures var c := HandleAll(Leader(s, []), run[..i]).cache;
            && Published(c, topic, m) && Alike(c, ReplicaAt(s, run, i).value, false)
  {
    MindedPrefix(s, run, topic, i);
    hide Published, AllMind, Alike, Keyed, HasMessages;
    m := RunPublishes(s, run[..i], topic, n);
    CacheIsReplay(s, run[..i]);
    var c, t := HandleAll(Leader(s, []), run[..i]).cache, ReplicaAt(s, run, i).value;
    Weaken(c, t, AllNameVersions(run[..i]), false);
    PublishedHas(c, topic, m);
    AlikeMessages(c, t, topic, m);
  }

  /** Exactly-once delivery over a run: a fetch at step i and a later one that continues from the
      number it returned, both on a replica that applies what the leader accepts, together deliver
      exactly what a single fetch at the end would have delivered. */
  lemma FetchesOverRun(s: Tree, run: seq<Arrival>, topic: Path, n: nat, i: nat, first: int,
                       sent: seq<Data>, next: int, sent': seq<Data>, next': int) returns (m: nat)
    requires Keyed(s) && Published(s, topic, n) && topic != [] && n + |run| < MAX_INT - 1 && AllMind(s, run, topic) && i <= |run|
    requires 1 <= first <= n + 1 && ReplicaAt(s, run, i).Ok? && ReplicaAt(s, run, |run|).Ok?
    requires Delivers(ReplicaAt(s, run, i).value, topic, first, sent, next)
    requires Delivers(ReplicaAt(s, run, |run|).value, topic, next, sent', next')
    ensures Fetched(ReplicaAt(s, run, |run|).value, topic, m, first, sent + sent', next') && next' == m + 1
  {
    hide Published, AllMind, Alike, Keyed, HasMessages, Extends, MessagePath, Replay, HandleAll;
    var m0 := ReplicaMessages(s, run, topic, n, i);
    m := ReplicaMessages(s, run, topic, n, |run|);
    var t0, t := ReplicaAt(s, run, i).value, ReplicaAt(s, run, |run|).value;
    var more := LaterMessages(s, run, topic, n, i, m0);
    SameCount(t, topic, m, more) by { assert HasMessages(t, topic, more); }
    FetchesChain(t0, t, topic, m0, m, first, sent, next, sent', next');
  }

  /** What the fetching loop returns on a storage. */
  ghost predicate Delivers(files: Tree, topic: Path, first: int, sent: seq<Data>, next: int) {
    && first <= next && MessagePath(topic, next) !in files
    && (forall k :: first <= k < next ==> MessagePath(topic, k) in files)
    && sent == MessagesBetween(files, topic, first, next)
  }

  lemma SameCount(t: Tree, topic: Path, m: nat, n: nat)
    requires HasMessages(t, topic, m) && HasMessages(t, topic, n)
    ensures m == n
  {
    hide MessagePath;
    assert MessagePath(topic, m + 1) !in t && MessagePath(topic, n + 1) !in t;
  }

  /** From step i on, the replica's messages only grow. */
  lemma LaterMessages(s: Tree, run: seq<Arrival>, topic: Path, n: nat, i: nat, m0: nat) returns (m: nat)
    requires Keyed(s) && Published(s, topic, n) && topic != [] && n + |run| < MAX_INT - 1 && AllMind(s, run, topic) && i <= |run|
    requires ReplicaAt(s, run, i).Ok? && HasMessages(ReplicaAt(s, run, i).value, topic, m0)
    ensures ReplicaAt(s, run, |run|).Ok? && m0 <= m <= n + |run|
    ensures HasMessages(ReplicaAt(s, run, |run|).value, topic, m)
    ensures Extends(ReplicaAt(s, run, i).value, ReplicaAt(s, run, |run|).value, topic, m0)
  {
    hide Published, AllMind, Alike, Keyed, HasMessages, Extends, MessagePath, Replay, Minds, Orderly, Check;
    var k := ReplicaMessages(s, run, topic, n, i);
    SameCount(ReplicaAt(s, run, i).value, topic, m0, k);
    m := CacheMessages(s, run, topic, n, i, m0, |run|);
    var last := ReplicaMessages(s, run, topic, n, |run|);
    assert run[..|run|] == run;
    var c0, c := HandleAll(Leader(s, []), run[..i]).cache, HandleAll(Leader(s, []), run).cache;
    PublishedHas(c, topic, m);
    PublishedHas(c0, topic, m0);
    AlikeMessages(c0, ReplicaAt(s, run, i).value, topic, m0);
    AlikeMessages(c, ReplicaAt(s, run, |run|).value, topic, m);
    ExtendsFurther(ReplicaAt(s, run, i).value, c0, c, topic, m0, m0);
    ExtendsFurther(ReplicaAt(s, run, i).value, c, ReplicaAt(s, run, |run|).value, topic, m0, m);
  }

  lemma {:induction false} CacheMessages(s: Tree, run: seq<Arrival>, topic: Path, n: nat, i: nat, m0: nat, j: nat) returns (m: nat)
    requires Published(s, topic, n) && topic != [] && n + |run| < MAX_INT && AllMind(s, run, topic) && i <= j <= |run|
    requires Published(HandleAll(Leader(s, []), run[..i]).cache, topic, m0) && m0 <= n + i
    ensures m0 <= m <= n + j && Published(HandleAll(Leader(s, []), run[..j]).cache, topic, m)
    ensures Extends(HandleAll(Leader(s, []), run[..i]).cache, HandleAll(Leader(s, []), run[..j]).cache, topic, m0)
    decreases j
  {
    hide Published, Extends, Minds, Orderly, Check;
    var c0 := HandleAll(Leader(s, []), run[..i]).cache;
    if j == i {
      m := m0;
      ExtendsSelf(c0, topic, m0);
    } else {
      var m1 := CacheMessages(s, run, topic, n, i, m0, j - 1);
      MindedPrefix(s, run, topic, j);
      var part := run[..j];
      assert part[..|part| - 1] == run[..j - 1];
      var c := HandleAll(Leader(s, []), run[..j - 1]).cache;
      m := MindedStep(c, run[j - 1], topic, m1);
      ExtendsFurther(c0, c, HandleAll(Leader(s, []), part).cache, topic, m0, m1);
    }
  }

  // ---- A topic that forgets its messages ----

  /** After an update of the topic itself that brings no children, the next leader has lost all its
      messages: the next one published is number 1 again, and on a replica it overwrites the first. */
  lemma TopicForgets(s: Tree, z: ZNode, n: nat, data: Data)
    requires Published(s, z.path, n) && Tidy(s) && 1 <= n < MAX_INT && z.path != [] && z.path != [SESSION_DIR]
    requires z.children == [] && z.ephemeral == ""
    ensures var s' := WriteOp(s, z);
            && MessagePath(z.path, 1) in s' && Loaded(s').Some?
            && var r := Check(Loaded(s').value, s', Publish(z.path, data)).0;
              r.Ok? && r.value.znodes != [] && r.value.znodes[0].path == MessagePath(z.path, 1)
  {
    var s', topic := WriteOp(s, z), z.path;
    PublishedHas(s, topic, n);
    assert MessagePath(topic, 1) in s;
    ForgottenCache(s, z, n);
    var c := Loaded(s').value;
    hide Loaded, Tidy, Published, HasMessages, WellFormed;
    FirstAgain(c, s', topic, data);
  }

  lemma ForgottenCache(s: Tree, z: ZNode, n: nat)
    requires Published(s, z.path, n) && Tidy(s) && 1 <= n < MAX_INT && z.path != [] && z.path != [SESSION_DIR]
    requires z.children == [] && z.ephemeral == ""
    ensures var s' := WriteOp(s, z);
            && MessagePath(z.path, 1) in s' && Loaded(s').Some?
            && var c := Loaded(s').value;
              z.path in c && c[z.path].children == [] && c[z.path].ephemeral == "" && MessagePath(z.path, 1) !in c
  {
    PublishedHas(s, z.path, n);
    assert MessagePath(z.path, 1) in s;
    var name := Numbered(MSG, 1);
    assert z.path + [name] == MessagePath(z.path, 1);
    assert |z.path + [name]| >= 2;
    hide Tidy, Published, WellFormed, Loaded, HasMessages, Numbered;
    ForgetsChildren(s, z, name);
  }

  lemma FirstAgain(c: Tree, storage: Tree, topic: Path, data: Data)
    requires topic in c && c[topic].children == [] && c[topic].ephemeral == "" && MessagePath(topic, 1) !in c
    ensures var r := Check(c, storage, Publish(topic, data)).0;
            r.Ok? && r.value.znodes != [] && r.value.znodes[0].path == MessagePath(topic, 1)
  {
    ChildPath(topic, MSG);
    assert SequentialPath(c, topic + [MSG]) == MessagePath(topic, 1);
    ChildPath(topic, Numbered(MSG, 1));
    hide Numbered, Dir, Base;
  }
}
