/** The ring election: messages travel around the live nodes of a ring, a discovery collects zxids,
    and the initiator announces the largest one. */
module Election {
  import opened Zxid
  import opened Wrappers
  import opened Collections

  datatype Kind = Discovery | Announcement | NewRing | RingDiscover

  datatype Message = Message(kind: Kind, source: string, visited: seq<string>, zxids: seq<uint32>, payload: seq<string>)

  /** A message and the targets to try, in order, until one is reached. */
  datatype Dispatch = Dispatch(targets: seq<string>, message: Message)

  // ---- Lexicographic order ----

  /** The order of names, byte by byte. */
  predicate Before(a: string, b: string) {
    b != [] && (a == [] || a[0] < b[0] || (a[0] == b[0] && Before(a[1..], b[1..])))
  }

  lemma {:induction false} NotBeforeSelf(a: string)
    ensures !Before(a, a)
  {
    if a != [] { NotBeforeSelf(a[1..]); }
  }

  lemma {:induction false} BeforeTotal(a: string, b: string)
    ensures Before(a, b) || Before(b, a) || a == b
    ensures !(Before(a, b) && Before(b, a))
    ensures !Before(a, a)
    decreases |a| + |b|
  {
    NotBeforeSelf(a);
    if a != [] {
      if b != [] && a[0] == b[0] {
        BeforeTotal(a[1..], b[1..]);
        assert a == [a[0]] + a[1..] && b == [b[0]] + b[1..];
      }
    }
  }

  lemma {:induction false} BeforeTransitive(a: string, b: string, c: string)
    requires Before(a, b) && Before(b, c)
    ensures Before(a, c)
  {
    if a != [] && a[0] == b[0] == c[0] {
      BeforeTransitive(a[1..], b[1..], c[1..]);
    }
  }

  /** `a` and `b` agree on their first `k` characters, where `a` ends or has the smaller character. */
  predicate SplitsAt(a: string, b: string, k: nat) {
    k <= |a| && k < |b| && a[..k] == b[..k] && (k == |a| || a[k] < b[k])
  }

  /** This is the lexicographic order. */
  lemma {:induction false} BeforeIsLexicographic(a: string, b: string)
    ensures Before(a, b) <==> exists k: nat :: SplitsAt(a, b, k)
    decreases |a|
  {
    if a != [] && b != [] && a[0] == b[0] {
      BeforeIsLexicographic(a[1..], b[1..]);
      if k: nat :| SplitsAt(a[1..], b[1..], k) {
        assert a[..k + 1] == [a[0]] + a[1..][..k] && b[..k + 1] == [b[0]] + b[1..][..k];
        assert SplitsAt(a, b, k + 1);
      }
      if k: nat :| SplitsAt(a, b, k) {
        assert k > 0 && a[1..][..k - 1] == a[..k][1..] && b[1..][..k - 1] == b[..k][1..];
        assert SplitsAt(a[1..], b[1..], k - 1);
      }
    } else {
      assert a[..0] == b[..0];
      SplitsLater(a, b);
      if a == [] || (b != [] && a[0] < b[0]) { assert b != [] ==> SplitsAt(a, b, 0); }
    }
  }

  lemma SplitsLater(a: string, b: string)
    ensures forall k: nat :: k > 0 && SplitsAt(a, b, k) ==> a != [] && b != [] && a[0] == b[0]
  {
    forall k: nat | k > 0 && SplitsAt(a, b, k) ensures a != [] && b != [] && a[0] == b[0] {
      assert a[0] == a[..k][0] && b[0] == b[..k][0];
    }
  }

  /** (zxid, name) pairs, zxid first. */
  predicate Beats(z1: uint32, n1: string, z2: uint32, n2: string) {
    z1 > z2 || (z1 == z2 && Before(n2, n1))
  }

  lemma BeatsOrder(z1: uint32, n1: string, z2: uint32, n2: string, z3: uint32, n3: string)
    ensures !Beats(z1, n1, z1, n1)
    ensures Beats(z1, n1, z2, n2) && Beats(z2, n2, z3, n3) ==> Beats(z1, n1, z3, n3)
    ensures Beats(z1, n1, z2, n2) || Beats(z2, n2, z1, n1) || (z1 == z2 && n1 == n2)
  {
    BeforeTotal(n1, n1);
    BeforeTotal(n1, n2);
    if Before(n3, n2) && Before(n2, n1) {
      BeforeTransitive(n3, n2, n1);
    }
  }

  /** Nothing in the lists beats entry `k`. */
  ghost predicate IsBest(zxids: seq<uint32>, names: seq<string>, k: nat)
    requires |zxids| == |names| && k < |names|
  {
    forall j :: 0 <= j < |names| ==> !Beats(zxids[j], names[j], zxids[k], names[k])
  }

  /** The name with the largest (zxid, name); the lists must be non-empty and of equal length. */
  method GetCorrespondingValue(zxids: seq<uint32>, names: seq<string>) returns (r: Option<string>)
    ensures r.None? <==> |zxids| == 0 || |zxids| != |names|
    ensures r.Some? ==> exists k: nat :: k < |names| && r.value == names[k] && IsBest(zxids, names, k)
  {
    if |zxids| == 0 || |zxids| != |names| {
      return None;
    }
    var maxIndex := 0;
    BeatsOrder(zxids[0], names[0], zxids[0], names[0], zxids[0], names[0]);
    for i := 1 to |zxids|
      invariant 0 <= maxIndex < i
      invariant forall j :: 0 <= j < i ==> !Beats(zxids[j], names[j], zxids[maxIndex], names[maxIndex])
    {
      if zxids[i] > zxids[maxIndex] || (zxids[i] == zxids[maxIndex] && Before(names[maxIndex], names[i])) {
        forall j | 0 <= j < i + 1 ensures !Beats(zxids[j], names[j], zxids[i], names[i]) {
          BeatsOrder(zxids[j], names[j], zxids[i], names[i], zxids[maxIndex], names[maxIndex]);
        }
        maxIndex := i;
      }
    }
    assert IsBest(zxids, names, maxIndex);
    return Some(names[maxIndex]);
  }

  /** The winner of a pass, as a function. */
  ghost function Winner(zxids: seq<uint32>, names: seq<string>): (r: string)
    requires |zxids| == |names| > 0
    ensures exists k: nat :: k < |names| && r == names[k] && IsBest(zxids, names, k)
  {
    BestExists(zxids, names);
    var k: nat :| k < |names| && IsBest(zxids, names, k);
    names[k]
  }

  lemma {:induction false} BestExists(zxids: seq<uint32>, names: seq<string>)
    requires |zxids| == |names| > 0
    ensures exists k: nat :: k < |names| && IsBest(zxids, names, k)
  {
    var last := |names| - 1;
    if last == 0 {
      BeatsOrder(zxids[0], names[0], zxids[0], names[0], zxids[0], names[0]);
      assert IsBest(zxids, names, 0);
    } else {
      BestExists(zxids[..last], names[..last]);
      var k: nat :| k < last && IsBest(zxids[..last], names[..last], k);
      var best := if Beats(zxids[last], names[last], zxids[k], names[k]) then last else k;
      forall j | 0 <= j < |names| ensures !Beats(zxids[j], names[j], zxids[best], names[best]) {
        BeatsOrder(zxids[j], names[j], zxids[best], names[best], zxids[k], names[k]);
        if j < last {
          assert !Beats(zxids[..last][j], names[..last][j], zxids[..last][k], names[..last][k]);
        }
      }
      assert IsBest(zxids, names, best);
    }
  }

  /** The largest pair has one name. */
  lemma WinnerIsUnique(zxids: seq<uint32>, names: seq<string>, k: nat)
    requires |zxids| == |names| && k < |names| && IsBest(zxids, names, k)
    ensures Winner(zxids, names) == names[k]
  {
    var j: nat :| j < |names| && Winner(zxids, names) == names[j] && IsBest(zxids, names, j);
    BeatsOrder(zxids[j], names[j], zxids[k], names[k], zxids[k], names[k]);
  }

  // ---- Rings ----

  function IndexOf<T(==)>(s: seq<T>, x: T): (i: int)
    ensures -1 <= i < |s|
    ensures i >= 0 ==> s[i] == x
    ensures i == -1 <==> x !in s
  {
    if s == [] then -1 else if s[0] == x then 0 else if IndexOf(s[1..], x) == -1 then -1 else 1 + IndexOf(s[1..], x)
  }

  /** The ring as seen from `id`: who comes after it, then who comes before it. An unknown id sees
      the ring unchanged. */
  function ReorderRing<T(==)>(ring: seq<T>, id: T): seq<T> {
    var start := IndexOf(ring, id);
    if start == -1 then ring else ring[start + 1..] + ring[..start]
  }

  predicate NoRepeats<T(==)>(s: seq<T>) {
    forall i, j :: 0 <= i < j < |s| ==> s[i] != s[j]
  }

  lemma IndexOfAt<T>(s: seq<T>, k: nat)
    requires NoRepeats(s) && k < |s|
    ensures IndexOf(s, s[k]) == k
  {
  }

  /** The cycle of the ring, started at `s`. */
  function Cycle<T(==)>(ring: seq<T>, s: T): seq<T> {
    [s] + ReorderRing(ring, s)
  }

  lemma CycleIsRotation<T>(ring: seq<T>, s: T)
    requires s in ring
    ensures var i := IndexOf(ring, s); 0 <= i < |ring| && Cycle(ring, s) == ring[i..] + ring[..i] && |Cycle(ring, s)| == |ring|
  {
    var i := IndexOf(ring, s);
    hide IndexOf;
    assert ring[i..] == [s] + ring[i + 1..];
    Regroup([s], ring[i + 1..], ring[..i]);
  }

  lemma CycleMembers<T>(ring: seq<T>, s: T)
    requires NoRepeats(ring) && s in ring
    ensures NoRepeats(Cycle(ring, s)) && forall x :: x in Cycle(ring, s) <==> x in ring
  {
    CycleIsRotation(ring, s);
    RotationMembers(ring, IndexOf(ring, s));
  }

  lemma RotationMembers<T>(ring: seq<T>, i: nat)
    requires NoRepeats(ring) && i < |ring|
    ensures var r := ring[i..] + ring[..i]; NoRepeats(r) && forall x :: x in r <==> x in ring
  {
    assert ring == ring[..i] + ring[i..];
  }

  /** All nodes of a ring see rotations of one cycle. */
  lemma RotationOfRotation<T>(ring: seq<T>, s: T, p: nat)
    requires NoRepeats(ring) && s in ring && p < |ring|
    ensures var r := Cycle(ring, s); |r| == |ring| && ReorderRing(ring, r[p]) == r[p + 1..] + r[..p]
  {
    CycleIsRotation(ring, s);
    hide *;
    SeenInRotation(ring, IndexOf(ring, s), p);
  }

  /** The ring as the p-th node of a rotation sees it. */
  lemma SeenInRotation<T>(ring: seq<T>, i: nat, p: nat)
    requires NoRepeats(ring) && i < |ring| && p < |ring|
    ensures var r := ring[i..] + ring[..i]; |r| == |ring| && ReorderRing(ring, r[p]) == r[p + 1..] + r[..p]
  {
    hide *;
    if i + p < |ring| {
      SeenFrom(ring, i + p);
      RotateForward(ring, i, p);
    } else {
      SeenFrom(ring, i + p - |ring|);
      RotateBack(ring, i, p);
    }
  }

  /** The ring as its k-th node sees it. */
  lemma SeenFrom<T>(ring: seq<T>, k: nat)
    requires NoRepeats(ring) && k < |ring|
    ensures ReorderRing(ring, ring[k]) == ring[k + 1..] + ring[..k]
  {
    IndexOfAt(ring, k);
    hide IndexOf, NoRepeats;
  }

  lemma RotateForward<T>(ring: seq<T>, i: nat, p: nat)
    requires i + p < |ring|
    ensures var r := ring[i..] + ring[..i];
            r[p] == ring[i + p] && ring[i + p + 1..] + ring[..i + p] == r[p + 1..] + r[..p]
  {
    var r := ring[i..] + ring[..i];
    assert r[p + 1..] == ring[i + p + 1..] + ring[..i];
    assert r[..p] == ring[i..i + p];
    assert ring[..i + p] == ring[..i] + ring[i..i + p];
    Regroup(ring[i + p + 1..], ring[..i], ring[i..i + p]);
  }

  lemma RotateBack<T>(ring: seq<T>, i: nat, p: nat)
    requires i < |ring| && p < |ring| <= i + p
    ensures var r, k := ring[i..] + ring[..i], i + p - |ring|;
            r[p] == ring[k] && ring[k + 1..] + ring[..k] == r[p + 1..] + r[..p]
  {
    var r, k := ring[i..] + ring[..i], i + p - |ring|;
    assert r[p + 1..] == ring[k + 1..i];
    assert r[..p] == ring[i..] + ring[..k];
    assert ring[k + 1..] == ring[k + 1..i] + ring[i..];
    Regroup(ring[k + 1..i], ring[i..], ring[..k]);
  }

  /** The live nodes of a list, in order. */
  function LiveOf<T(==)>(s: seq<T>, live: set<T>): seq<T> {
    if s == [] then [] else LiveOf(s[..|s| - 1], live) + (if s[|s| - 1] in live then [s[|s| - 1]] else [])
  }

  /** Sending retries until a target is reached. */
  function FirstLive<T(==)>(targets: seq<T>, live: set<T>): Option<T> {
    if targets == [] then None
    else if targets[0] in live then Some(targets[0])
    else FirstLive(targets[1..], live)
  }

  // ---- Passing a message on ----

  /** Completes at a node already visited; otherwise the node adds itself and passes it on. */
  function PassedOn(message: Message, id: string, zxid: uint32): Message {
    message.(visited := message.visited + [id], zxids := message.zxids + [zxid], source := id)
  }

  /** How a pass ends: at a node it had already visited, or nowhere if nobody can be reached. */
  datatype Pass = Pass(message: Message, receivers: seq<string>, complete: bool)

  /** The journey of a message that arrives at `at`, all nodes sharing one ring. */
  function Travel(ring: seq<string>, live: set<string>, zxid: string -> uint32, at: string, message: Message): Pass
    requires at in live
    decreases |live - Visited(message)|
  {
    if at in message.visited then Pass(message, [at], true)
    else
      var next := PassedOn(message, at, zxid(at));
      assert live - Visited(next) < live - Visited(message) by {
        assert at in live - Visited(message) && at !in live - Visited(next);
      }
      Smaller(live - Visited(next), live - Visited(message));
      match FirstLive(ReorderRing(ring, at), live)
      case None => Pass(next, [at], false)
      case Some(target) =>
        FirstLiveIsLive(ReorderRing(ring, at), live);
        var rest := Travel(ring, live, zxid, target, next);
        rest.(receivers := [at] + rest.receivers)
  }

  function Visited(message: Message): set<string> {
    set x | x in message.visited
  }

  lemma Smaller(a: set<string>, b: set<string>)
    requires a < b
    ensures |a| < |b|
  {
    assert b == a + (b - a);
  }

  lemma FirstLiveIsLive(targets: seq<string>, live: set<string>)
    ensures FirstLive(targets, live).Some? ==> FirstLive(targets, live).value in live
  {
  }

  function Started(kind: Kind, id: string, zxid: uint32, payload: seq<string>): Message {
    Message(kind, id, [id], [zxid], payload)
  }

  /** The journey of a message that `id` starts over the targets `first`. */
  function Circulate(first: seq<string>, ring: seq<string>, live: set<string>, zxid: string -> uint32, message: Message): Pass {
    match FirstLive(first, live)
    case None => Pass(message, [], false)
    case Some(target) =>
      FirstLiveIsLive(first, live);
      Travel(ring, live, zxid, target, message)
  }

  // ---- A pass visits exactly the live nodes, once each, in ring order ----

  function Zxids(names: seq<string>, zxid: string -> uint32): (z: seq<uint32>)
    ensures |z| == |names| && forall k :: 0 <= k < |z| ==> z[k] == zxid(names[k])
  {
    if names == [] then [] else Zxids(names[..|names| - 1], zxid) + [zxid(names[|names| - 1])]
  }

  lemma {:induction false} LiveOfMembers<T>(s: seq<T>, live: set<T>)
    requires NoRepeats(s)
    ensures NoRepeats(LiveOf(s, live)) && forall x :: x in LiveOf(s, live) <==> x in s && x in live
  {
    if s != [] {
      var init := s[..|s| - 1];
      assert s == init + [s[|s| - 1]];
      LiveOfMembers(init, live);
    }
  }

  lemma {:induction false} LiveOfAppend<T>(a: seq<T>, b: seq<T>, live: set<T>)
    ensures LiveOf(a + b, live) == LiveOf(a, live) + LiveOf(b, live)
  {
    if b == [] {
      assert a + b == a;
    } else {
      var init := b[..|b| - 1];
      assert (a + b)[..|a + b| - 1] == a + init;
      LiveOfAppend(a, init, live);
    }
  }

  /** The next live node further along, if there is one. */
  lemma {:induction false} FirstLiveAt<T>(s: seq<T>, live: set<T>) returns (k: nat)
    ensures k <= |s| && LiveOf(s[..k], live) == []
    ensures k < |s| ==> s[k] in live && FirstLive(s, live) == Some(s[k])
    ensures k == |s| ==> FirstLive(s, live) == None
  {
    if s == [] {
      k := 0;
    } else if s[0] in live {
      k := 0;
    } else {
      k := FirstLiveAt(s[1..], live);
      k := k + 1;
      assert s[..k] == [s[0]] + s[1..][..k - 1];
      LiveOfAppend([s[0]], s[1..][..k - 1], live);
    }
  }

  lemma {:induction false} FirstLiveAppend<T>(s: seq<T>, t: seq<T>, live: set<T>)
    ensures FirstLive(s + t, live) == if FirstLive(s, live).Some? then FirstLive(s, live) else FirstLive(t, live)
  {
    if s == [] {
      assert s + t == t;
    } else {
      assert (s + t)[1..] == s[1..] + t;
      FirstLiveAppend(s[1..], t, live);
    }
  }

  /** Where the message goes from the p-th node of the cycle: to the next live node, or from the
      last one back to the start. */
  lemma NextStop<T>(ring: seq<T>, live: set<T>, s: T, p: nat) returns (q: nat)
    requires NoRepeats(ring) && s in ring && s in live && 0 < p < |ring|
    ensures var r := Cycle(ring, s);
            && p < q <= |r| == |ring| && LiveOf(r[p + 1..q], live) == []
            && (q < |r| ==> r[q] in live)
            && FirstLive(ReorderRing(ring, r[p]), live) == Some(if q < |r| then r[q] else s)
  {
    hide *;
    RotationOfRotation(ring, s, p);
    var r := Cycle(ring, s);
    StartIsFirst(ring, live, s, p);
    var k := FirstLiveAt(r[p + 1..], live);
    q := p + 1 + k;
    assert r[p + 1..q] == r[p + 1..][..k];
    FirstLiveAppend(r[p + 1..], r[..p], live);
  }

  lemma StartIsFirst<T>(ring: seq<T>, live: set<T>, s: T, p: nat)
    requires s in live && 0 < p <= |Cycle(ring, s)|
    ensures FirstLive(Cycle(ring, s)[..p], live) == Some(s)
  {
    hide ReorderRing;
  }

  lemma LiveOfOne<T>(x: T, live: set<T>)
    ensures LiveOf([x], live) == if x in live then [x] else []
  {
    assert [x][..0] == [];
  }

  lemma NobodyIn<T>(a: seq<T>, dead: seq<T>, rest: seq<T>, live: set<T>)
    requires LiveOf(dead, live) == []
    ensures LiveOf(a + dead, live) == LiveOf(a, live) && LiveOf(dead + rest, live) == LiveOf(rest, live)
  {
    hide *;
    LiveOfAppend(a, dead, live);
    LiveOfAppend(dead, rest, live);
  }

  /** The live nodes of the cycle around two stops with nobody alive in between. */
  lemma LiveBetween<T>(r: seq<T>, live: set<T>, p: nat, q: nat)
    requires p < q <= |r| && r[p] in live && LiveOf(r[p + 1..q], live) == []
    ensures LiveOf(r[..q], live) == LiveOf(r[..p + 1], live)
    ensures LiveOf(r[p..], live) == [r[p]] + LiveOf(r[q..], live)
  {
    hide *;
    var dead, rest := r[p + 1..q], r[q..];
    NobodyIn(r[..p + 1], dead, rest, live);
    assert r[..q] == r[..p + 1] + dead;
    assert r[p..] == [r[p]] + (dead + rest);
    LiveOfOne(r[p], live);
    LiveOfAppend([r[p]], dead + rest, live);
  }

  lemma NotVisitedYet<T>(ring: seq<T>, live: set<T>, s: T, p: nat)
    requires NoRepeats(ring) && s in ring && s in live && 0 < p < |ring|
    ensures var r := Cycle(ring, s);
            |r| == |ring| && r[p] !in LiveOf(r[..p], live) && s in LiveOf(r[..p], live)
  {
    CycleIsRotation(ring, s);
    CycleMembers(ring, s);
    var r := Cycle(ring, s);
    LiveOfMembers(r[..p], live);
    assert r[..p][0] == s;
  }

  /** What a completed pass looks like. */
  ghost predicate Completed(pass: Pass, message: Message, visited: seq<string>, zxid: string -> uint32, receivers: seq<string>) {
    && pass.complete && pass.receivers == receivers
    && pass.message.kind == message.kind && pass.message.payload == message.payload
    && pass.message.visited == visited && pass.message.zxids == Zxids(visited, zxid)
  }

  /** One stop: the node adds itself and the message moves on to the next live node of the cycle,
      or back to the start. */
  lemma Stop(ring: seq<string>, live: set<string>, zxid: string -> uint32, s: string, p: nat, message: Message) returns (q: nat)
    requires NoRepeats(ring) && s in ring && s in live && 0 < p < |ring| == |Cycle(ring, s)|
    requires var r := Cycle(ring, s);
             r[p] in live && message.visited == LiveOf(r[..p], live) && message.zxids == Zxids(message.visited, zxid)
    ensures var r := Cycle(ring, s);
            var next, target := PassedOn(message, r[p], zxid(r[p])), if q < |r| then r[q] else s;
            && p < q <= |r| && next.visited == LiveOf(r[..q], live) && next.zxids == Zxids(next.visited, zxid)
            && LiveOf(r[p..], live) == [r[p]] + LiveOf(r[q..], live) && s in next.visited
            && target in live && Moves(Travel(ring, live, zxid, r[p], message), r[p], Travel(ring, live, zxid, target, next))
  {
    var r := Cycle(ring, s);
    NotVisitedYet(ring, live, s, p);
    NextVisited(r, p, live, zxid, message);
    q := NextStop(ring, live, s, p);
    LiveBetween(r, live, p, q);
    hide LiveOf, Cycle, NoRepeats, Zxids, ReorderRing, FirstLive, Travel;
    TravelStep(ring, live, zxid, r[p], message, if q < |r| then r[q] else s);
  }

  ghost predicate Moves(pass: Pass, at: string, rest: Pass) {
    pass == rest.(receivers := [at] + rest.receivers)
  }

  /** From the p-th node of the cycle on, with everybody before it visited. */
  lemma {:induction false} TravelOn(ring: seq<string>, live: set<string>, zxid: string -> uint32, s: string, p: nat, message: Message)
    requires NoRepeats(ring) && s in ring && s in live && 0 < p < |ring| == |Cycle(ring, s)|
    requires var r := Cycle(ring, s);
             r[p] in live && message.visited == LiveOf(r[..p], live) && message.zxids == Zxids(message.visited, zxid)
    ensures var r := Cycle(ring, s);
            Completed(Travel(ring, live, zxid, r[p], message), message, LiveOf(r, live), zxid, LiveOf(r[p..], live) + [s])
    decreases |ring| - p
  {
    var r := Cycle(ring, s);
    hide LiveOf, Cycle, NoRepeats, Zxids, ReorderRing, FirstLive, Travel;
    var q := Stop(ring, live, zxid, s, p, message);
    var next := PassedOn(message, r[p], zxid(r[p]));
    if q < |r| {
      TravelOn(ring, live, zxid, s, q, next);
      Regroup([r[p]], LiveOf(r[q..], live), [s]);
    } else {
      assert r[..q] == r;
      assert r[q..] == [];
      LiveOfNone(live);
      TravelHome(ring, live, zxid, s, next);
    }
  }

  lemma TravelStep(ring: seq<string>, live: set<string>, zxid: string -> uint32, at: string, message: Message, target: string)
    requires at in live && at !in message.visited && target in live && FirstLive(ReorderRing(ring, at), live) == Some(target)
    ensures Moves(Travel(ring, live, zxid, at, message), at, Travel(ring, live, zxid, target, PassedOn(message, at, zxid(at))))
  {
    hide FirstLive, ReorderRing;
  }

  lemma LiveOfNone(live: set<string>)
    ensures LiveOf([], live) == []
  {
  }

  lemma TravelHome(ring: seq<string>, live: set<string>, zxid: string -> uint32, s: string, message: Message)
    requires s in live && s in message.visited
    ensures Travel(ring, live, zxid, s, message) == Pass(message, [s], true)
  {
  }

  lemma NextVisited(r: seq<string>, p: nat, live: set<string>, zxid: string -> uint32, message: Message)
    requires p < |r| && r[p] in live
    requires message.visited == LiveOf(r[..p], live) && message.zxids == Zxids(message.visited, zxid)
    ensures var next := PassedOn(message, r[p], zxid(r[p]));
            next.visited == LiveOf(r[..p + 1], live) && next.zxids == Zxids(next.visited, zxid)
  {
    assert r[..p + 1][..p] == r[..p];
    var v := message.visited;
    assert (v + [r[p]])[..|v|] == v;
  }

  // ---- Whole passes ----

  /** A first target list that starts like the ring seen from the initiator. */
  lemma FirstStop(ring: seq<string>, live: set<string>, s: string) returns (p: nat)
    requires NoRepeats(ring) && s in ring && s in live
    ensures var r := Cycle(ring, s);
            && 0 < p <= |r| == |ring| && LiveOf(r[..p], live) == [s]
            && FirstLive(ReorderRing(ring, s), live) == (if p < |r| then Some(r[p]) else None)
            && (p < |r| ==> r[p] in live)
  {
    CycleIsRotation(ring, s);
    var rest := ReorderRing(ring, s);
    var k := FirstLiveAt(rest, live);
    p := k + 1;
    var r := Cycle(ring, s);
    assert r[..p] == [s] + rest[..k];
    LiveOfAppend([s], rest[..k], live);
    assert [s][..0] == [];
  }

  lemma LiveCycle(ring: seq<string>, live: set<string>, s: string)
    requires NoRepeats(ring) && s in ring && s in live && forall x :: x in live ==> x in ring
    ensures var v := LiveOf(Cycle(ring, s), live);
            NoRepeats(v) && (forall x :: x in v <==> x in live) && |v| == |live|
  {
    CycleMembers(ring, s);
    LiveOfMembers(Cycle(ring, s), live);
    Cardinality(LiveOf(Cycle(ring, s), live), live);
  }

  lemma {:induction false} Cardinality(v: seq<string>, s: set<string>)
    requires NoRepeats(v) && forall x :: x in v <==> x in s
    ensures |v| == |s|
  {
    if v == [] {
      assert s == {};
    } else {
      var init, last := v[..|v| - 1], v[|v| - 1];
      assert v == init + [last];
      Cardinality(init, s - {last});
    }
  }

  /** Started anywhere, with at least one other node alive, a message comes back to its initiator
      after visiting every live node once, in ring order, collecting each one's zxid; alone, the
      initiator reaches nobody. */
  lemma PassVisitsLive(ring: seq<string>, live: set<string>, zxid: string -> uint32, s: string, kind: Kind, payload: seq<string>)
    requires NoRepeats(ring) && s in live && forall x :: x in live ==> x in ring
    ensures var m := Started(kind, s, zxid(s), payload);
            var pass, visited := Circulate(ReorderRing(ring, s), ring, live, zxid, m), LiveOf(Cycle(ring, s), live);
            && NoRepeats(visited) && (forall x :: x in visited <==> x in live) && |visited| == |live| && visited[0] == s
            && (pass.complete <==> |live| >= 2)
            && if |live| >= 2 then Completed(pass, m, visited, zxid, visited[1..] + [s]) else pass.receivers == []
  {
    var m, r := Started(kind, s, zxid(s), payload), Cycle(ring, s);
    hide LiveOf, Cycle, Zxids, ReorderRing, FirstLive, Travel, NoRepeats;
    LiveCycle(ring, live, s);
    var p := FirstStop(ring, live, s);
    Split(r, live, p);
    ZxidsOne(s, zxid);
    if p < |r| {
      TravelOn(ring, live, zxid, s, p, m);
      TwoLive(live, s, p, ring);
    } else {
      assert r[p..] == [];
      LiveOfNone(live);
    }
  }

  lemma Split(r: seq<string>, live: set<string>, p: nat)
    requires p <= |r|
    ensures LiveOf(r, live) == LiveOf(r[..p], live) + LiveOf(r[p..], live)
  {
    LiveOfAppend(r[..p], r[p..], live);
    assert r[..p] + r[p..] == r;
  }

  lemma ZxidsOne(s: string, zxid: string -> uint32)
    ensures Zxids([s], zxid) == [zxid(s)]
  {
    assert [s][..0] == [];
  }

  lemma TwoLive(live: set<string>, s: string, p: nat, ring: seq<string>)
    requires NoRepeats(ring) && s in ring && s in live && 0 < p < |ring| == |Cycle(ring, s)| && Cycle(ring, s)[p] in live
    ensures |live| >= 2
  {
    var x := Cycle(ring, s)[p];
    CycleMembers(ring, s);
    assert Cycle(ring, s)[0] == s != x;
    assert live == {s, x} + (live - {s, x});
  }

  // ---- The handlers ----

  /** Adds a node that was not visited and passes the message on. */
  function PassDown(ring: seq<string>, id: string, zxid: uint32, message: Message): seq<Dispatch> {
    if id in message.visited then [] else [Dispatch(ring, PassedOn(message, id, zxid))]
  }

  /** What a discovery message leads to; picking a winner from unequal or empty lists panics. */
  ghost function OnDiscovery(addresses: seq<string>, id: string, zxid: uint32, message: Message): Option<seq<Dispatch>> {
    if id !in message.visited then Some(PassDown(ReorderRing(addresses, id), id, zxid, message))
    else if |message.visited| < |addresses| / 2 + 1 then Some([])
    else if |message.zxids| == 0 || |message.zxids| != |message.visited| then None
    else Some([Dispatch(ReorderRing(message.visited, id),
                        Started(Announcement, id, zxid, [Winner(message.zxids, message.visited)]))])
  }

  function OnAnnouncement(addresses: seq<string>, id: string, zxid: uint32, message: Message): seq<Dispatch> {
    var ring := ReorderRing(addresses, id);
    if id in message.visited then [Dispatch(ring, Started(NewRing, id, zxid, message.visited))]
    else PassDown(ring, id, zxid, message)
  }

  function OnRingDiscover(addresses: seq<string>, id: string, zxid: uint32, message: Message): seq<Dispatch> {
    if id in message.visited then [Dispatch(ReorderRing(message.visited, id), Started(NewRing, id, zxid, message.visited))]
    else PassDown(ReorderRing(addresses, id), id, zxid, message)
  }

  /** What a node knows of the ring and of its leader; a starting node waits for a new ring before it
      starts an election. */
  datatype Member = Member(addresses: seq<string>, coordinator: string, entering: bool)

  /** What a node sends on a message, and what it knows afterwards; None is a panic. */
  ghost function Handled(id: string, n: Member, zxid: uint32, message: Message): (Option<seq<Dispatch>>, Member) {
    match message.kind
    case Discovery => (OnDiscovery(n.addresses, id, zxid, message), n)
    case Announcement =>
      if message.payload == [] then (None, n)
      else (Some(OnAnnouncement(n.addresses, id, zxid, message)), n.(coordinator := MaxOf(message.payload)))
    case NewRing =>
      var ring := ReorderRing(message.payload, id);
      var pass := PassDown(ring, id, zxid, message);
      (Some(if n.entering then pass + [Dispatch(ring, Started(Discovery, id, zxid, []))] else pass),
       n.(addresses := message.payload, entering := false))
    case RingDiscover => (Some(OnRingDiscover(n.addresses, id, zxid, message)), n)
  }

  function MaxOf(names: seq<string>): (m: string)
    requires names != []
    ensures m in names && forall n <- names :: !Before(m, n)
  {
    var last := names[|names| - 1];
    NotBeforeSelf(last);
    if |names| == 1 then last
    else
      var m := MaxOf(names[..|names| - 1]);
      AboveBoth(names, m, last);
      if Before(m, last) then last else m
  }

  lemma AboveBoth(names: seq<string>, m: string, last: string)
    requires |names| > 1 && last == names[|names| - 1] && m in names[..|names| - 1]
    requires forall n <- names[..|names| - 1] :: !Before(m, n)
    ensures var best := if Before(m, last) then last else m; best in names && forall n <- names :: !Before(best, n)
  {
    var best := if Before(m, last) then last else m;
    assert names == names[..|names| - 1] + [last];
    forall n | n in names ensures !Before(best, n) {
      NotBeforeSelf(n);
      if best == last && Before(last, n) { BeforeTransitive(m, last, n); }
    }
  }

  class Elector {
    const name: string
    var addresses: seq<string>
    var coordinator: string
    var ringDiscoverInitiator: bool

    constructor (name: string, servers: seq<string>)
      ensures this.name == name && addresses == servers && coordinator == "" && !ringDiscoverInitiator
    {
      this.name, addresses, coordinator, ringDiscoverInitiator := name, servers, "", false;
    }

    ghost function State(): Member
      reads this
    {
      Member(addresses, coordinator, ringDiscoverInitiator)
    }

    method InitiateElectionDiscovery(zxid: uint32) returns (out: Dispatch)
      ensures out == Dispatch(ReorderRing(addresses, name), Started(Discovery, name, zxid, []))
    {
      out := Dispatch(ReorderRing(addresses, name), Started(Discovery, name, zxid, []));
    }

    method InitiateRingEntry(servers: seq<string>, zxid: uint32) returns (out: Dispatch)
      modifies this
      ensures ringDiscoverInitiator && addresses == servers && coordinator == old(coordinator)
      ensures out == Dispatch(ReorderRing(servers, name), Started(RingDiscover, name, zxid, []))
    {
      ringDiscoverInitiator := true;
      addresses := servers;
      out := Dispatch(ReorderRing(addresses, name), Started(RingDiscover, name, zxid, []));
    }

    method HandleDiscovery(message: Message, zxid: uint32) returns (r: Option<seq<Dispatch>>)
      ensures r == OnDiscovery(addresses, name, zxid, message)
    {
      if name !in message.visited {
        return Some(PassDown(ReorderRing(addresses, name), name, zxid, message));
      }
      if |message.visited| >= |addresses| / 2 + 1 {
        var elected := GetCorrespondingValue(message.zxids, message.visited);
        if elected.None? {
          return None;
        }
        ghost var k: nat :| k < |message.visited| && elected.value == message.visited[k] && IsBest(message.zxids, message.visited, k);
        WinnerIsUnique(message.zxids, message.visited, k);
        return Some([Dispatch(ReorderRing(message.visited, name), Started(Announcement, name, zxid, [elected.value]))]);
      }
      return Some([]);
    }

    /** False means that an election or a ring update is over; None is a panic. */
    method HandleMessage(message: Message, zxid: uint32) returns (out: Option<seq<Dispatch>>, ongoing: bool)
      modifies this
      ensures match message.kind
        case Discovery =>
          unchanged(this) && ongoing && out == OnDiscovery(old(addresses), name, zxid, message)
        case Announcement =>
          && unchanged(this`addresses, this`ringDiscoverInitiator) && (out.None? <==> message.payload == [])
          && (out.Some? ==> ongoing && coordinator == MaxOf(message.payload)
                            && out.value == OnAnnouncement(addresses, name, zxid, message))
        case NewRing =>
          var pass := PassDown(ReorderRing(message.payload, name), name, zxid, message);
          && addresses == message.payload && coordinator == old(coordinator) && !ringDiscoverInitiator
          && ongoing == old(ringDiscoverInitiator)
          && out == Some(if ongoing then pass + [Dispatch(ReorderRing(addresses, name), Started(Discovery, name, zxid, []))] else pass)
        case RingDiscover =>
          unchanged(this) && !ongoing && out == Some(OnRingDiscover(addresses, name, zxid, message))
      ensures (out, State()) == Handled(name, old(State()), zxid, message)
    {
      match message.kind {
        case Discovery =>
          out := HandleDiscovery(message, zxid);
          ongoing := true;
        case Announcement =>
          if message.payload == [] {
            return None, false;
          }
          out := Some(OnAnnouncement(addresses, name, zxid, message));
          coordinator := MaxOf(message.payload);
          ongoing := true;
        case NewRing =>
          addresses := message.payload;
          var pass := PassDown(ReorderRing(addresses, name), name, zxid, message);
          if ringDiscoverInitiator {
            ringDiscoverInitiator := false;
            var discovery := InitiateElectionDiscovery(zxid);
            return Some(pass + [discovery]), true;
          }
          return Some(pass), false;
        case RingDiscover =>
          return Some(OnRingDiscover(addresses, name, zxid, message)), false;
      }
    }
  }

  // ---- A whole election ----

  /** The initiator's first stop is the second of the live nodes. */
  lemma SecondLive(ring: seq<string>, live: set<string>, s: string)
    requires NoRepeats(ring) && s in ring && s in live
    requires var v := LiveOf(Cycle(ring, s), live); |v| >= 2 && v[0] == s
    ensures FirstLive(ReorderRing(ring, s), live) == Some(LiveOf(Cycle(ring, s), live)[1])
  {
    var r := Cycle(ring, s);
    var v := LiveOf(r, live);
    var p := FirstStop(ring, live, s);
    hide Cycle, ReorderRing, FirstLive, NoRepeats, LiveOf;
    Split(r, live, p);
    LiveOfNone(live);
    assert r[|r|..] == [];
    assert p < |r|;
    LiveFirst(r[p..], live);
  }

  lemma LiveFirst(s: seq<string>, live: set<string>)
    requires s != [] && s[0] in live
    ensures LiveOf(s, live) != [] && LiveOf(s, live)[0] == s[0]
  {
    assert s == [s[0]] + s[1..];
    LiveOfAppend([s[0]], s[1..], live);
    assert [s[0]][..0] == [];
  }

  /** A ring of live nodes seen from its first one. */
  lemma CycleOfLive(v: seq<string>, live: set<string>)
    requires |v| >= 2 && NoRepeats(v) && forall x <- v :: x in live
    ensures Cycle(v, v[0]) == v && LiveOf(v, live) == v && FirstLive(ReorderRing(v, v[0]), live) == Some(v[1])
  {
    IndexOfAt(v, 0);
    assert ReorderRing(v, v[0]) == v[1..];
    AllLive(v, live);
  }

  /** The live nodes in ring order from `s` form a ring on which `s` comes first. */
  lemma LiveRing(ring: seq<string>, live: set<string>, s: string)
    requires NoRepeats(ring) && s in live && (forall x :: x in live ==> x in ring) && |live| >= 2
    ensures var v := LiveOf(Cycle(ring, s), live);
            && |v| == |live| && v[0] == s && NoRepeats(v) && (forall x :: x in v <==> x in live)
            && LiveOf(Cycle(v, s), live) == v
            && FirstLive(ReorderRing(v, s), live) == FirstLive(ReorderRing(ring, s), live)
  {
    hide Cycle, LiveOf, FirstLive, ReorderRing, NoRepeats;
    LiveCycle(ring, live, s);
    StartsLive(ring, live, s);
    SecondLive(ring, live, s);
    CycleOfLive(LiveOf(Cycle(ring, s), live), live);
  }

  lemma StartsLive(ring: seq<string>, live: set<string>, s: string)
    requires NoRepeats(ring) && s in ring && s in live
    ensures var v := LiveOf(Cycle(ring, s), live); v != [] && v[0] == s
  {
    var p := FirstStop(ring, live, s);
    Split(Cycle(ring, s), live, p);
  }

  lemma {:induction false} AllLive(v: seq<string>, live: set<string>)
    requires forall x <- v :: x in live
    ensures LiveOf(v, live) == v
  {
    if v != [] {
      AllLive(v[..|v| - 1], live);
    }
  }

  /** The discovery that `s` starts, and what it makes of the message when it comes back. */
  ghost function Discover(ring: seq<string>, live: set<string>, zxid: string -> uint32, s: string): Option<seq<Dispatch>> {
    var pass := Circulate(ReorderRing(ring, s), ring, live, zxid, Started(Discovery, s, zxid(s), []));
    if pass.complete then OnDiscovery(ring, s, zxid(s), pass.message) else Some([])
  }

  /** The live node with the largest (zxid, name). */
  ghost predicate IsElected(live: set<string>, zxid: string -> uint32, x: string) {
    x in live && forall y :: y in live ==> !Beats(zxid(y), y, zxid(x), x)
  }

  /** With at least two live nodes that are a majority of the ring, the node with the largest
      (zxid, name) among them is announced; otherwise nobody is. */
  lemma DiscoveryElects(ring: seq<string>, live: set<string>, zxid: string -> uint32, s: string)
    requires NoRepeats(ring) && s in live && forall x :: x in live ==> x in ring
    ensures var visited, result := LiveOf(Cycle(ring, s), live), Discover(ring, live, zxid, s);
            if |live| >= 2 && |live| >= |ring| / 2 + 1 then
              exists x :: IsElected(live, zxid, x)
                && result == Some([Dispatch(ReorderRing(visited, s), Started(Announcement, s, zxid(s), [x]))])
            else result == Some([])
  {
    hide LiveOf, ReorderRing, Cycle, Circulate, NoRepeats;
    PassVisitsLive(ring, live, zxid, s, Discovery, []);
    var visited := LiveOf(Cycle(ring, s), live);
    if |live| >= 2 && |live| >= |ring| / 2 + 1 {
      WinnerIsElected(live, zxid, visited);
    }
  }

  lemma WinnerIsElected(live: set<string>, zxid: string -> uint32, visited: seq<string>)
    requires visited != [] && forall x :: x in visited <==> x in live
    ensures IsElected(live, zxid, Winner(Zxids(visited, zxid), visited))
  {
    var z := Zxids(visited, zxid);
    var k: nat :| k < |visited| && Winner(z, visited) == visited[k] && IsBest(z, visited, k);
    forall y | y in live ensures !Beats(zxid(y), y, zxid(visited[k]), visited[k]) {
      var j :| 0 <= j < |visited| && visited[j] == y;
      BestAt(z, visited, k, j);
    }
  }

  lemma BestAt(zxids: seq<uint32>, names: seq<string>, k: nat, j: nat)
    requires |zxids| == |names| && k < |names| && j < |names| && IsBest(zxids, names, k)
    ensures !Beats(zxids[j], names[j], zxids[k], names[k])
  {
  }

  /** Everybody else has a smaller zxid, or the same zxid and an earlier name. */
  lemma ElectedIsLargest(live: set<string>, zxid: string -> uint32, x: string)
    ensures IsElected(live, zxid, x) <==>
      x in live && forall y :: y in live && y != x ==> zxid(y) < zxid(x) || (zxid(y) == zxid(x) && Before(y, x))
  {
    forall y | y in live ensures !Beats(zxid(y), y, zxid(x), x)
      <==> y == x || zxid(y) < zxid(x) || (zxid(y) == zxid(x) && Before(y, x)) {
      BeforeTotal(x, y);
    }
  }

  /** Exactly one node is elected. */
  lemma ElectedIsUnique(live: set<string>, zxid: string -> uint32, x: string, y: string)
    requires IsElected(live, zxid, x) && IsElected(live, zxid, y)
    ensures x == y
  {
    BeatsOrder(zxid(x), x, zxid(y), y, zxid(y), y);
  }

  /** The announcement reaches every live node once, and the new ring message after it does too:
      all of them take the same coordinator, and the live nodes in ring order as the new ring. */
  lemma AnnouncementReachesAll(ring: seq<string>, live: set<string>, zxid: string -> uint32, s: string, x: string)
    requires NoRepeats(ring) && s in live && (forall y :: y in live ==> y in ring) && |live| >= 2
    ensures var visited := LiveOf(Cycle(ring, s), live);
            var told := Started(Announcement, s, zxid(s), [x]);
            var pass := Circulate(ReorderRing(visited, s), ring, live, zxid, told);
            var after := OnAnnouncement(ring, s, zxid(s), pass.message);
            var newRing := Started(NewRing, s, zxid(s), visited);
            && |visited| == |live| && visited[0] == s && MaxOf([x]) == x
            && Completed(pass, told, visited, zxid, visited[1..] + [s])
            && after == [Dispatch(ReorderRing(ring, s), newRing)]
            && Completed(Circulate(ReorderRing(ring, s), visited, live, zxid, newRing), newRing, visited, zxid, visited[1..] + [s])
  {
    hide LiveOf, ReorderRing, Cycle, NoRepeats, FirstLive, Travel;
    LiveRing(ring, live, s);
    var visited := LiveOf(Cycle(ring, s), live);
    PassVisitsLive(ring, live, zxid, s, Announcement, [x]);
    PassVisitsLive(visited, live, zxid, s, NewRing, visited);
  }
}
