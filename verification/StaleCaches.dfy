/** Runs of the whole system in which a new leader still has a proposal queued: it checks the next
    request against a storage that lacks the first one. */
module StaleCaches {
  import opened Zxid
  import opened Wrappers
  import opened Collections
  import opened Messages
  import opened Channel
  import opened AckCounting
  import opened SyncReply
  import opened ProposalLog
  import opened ZabNode
  import opened FollowerSteps
  import opened LeaderSteps
  import opened TermSteps
  import opened Cluster
  import opened ClusterRuns
  import opened ClusterTheorems
  import opened Failovers
  import opened Replication
  import Znodes
  import opened ZnodeAgreement
  import opened ZnodeLoading
  import ZnodeRuns

  // ---- Steps of the system ----

  /** A step that decides on no write. */
  lemma QuietStep(k: Codec, s0: Tree, w: World, cache: Option<Tree>, a: Action, w': World)
    requires SystemReachable(k, s0, System(w, cache)) && Takes(w, a, w') && !a.Elect? && WriteAt(w, a) == None
    ensures SystemReachable(k, s0, System(w', cache)) && WellFormed(w')
  {
    hide SystemReachable, WellFormed, Enabled, Apply;
    SystemStep(k, s0, System(w, cache), a);
  }

  /** A step that accepts a write. */
  lemma AcceptStep(k: Codec, s0: Tree, w: World, c: Tree, a: Action, w': World, r: WriteRequest, q: WriteRequest,
                   c': Tree)
    requires SystemReachable(k, s0, System(w, Some(c))) && Takes(w, a, w') && !a.Elect? && WriteAt(w, a).Some?
    requires k.parse(WriteAt(w, a).value.content) == Some(r)
    requires Znodes.Check(c, LeaderStorage(k, s0, w), r) == (Znodes.Ok(q), c')
    requires VerdictOf(a) == Accepted(k.pack(WriteAt(w, a).value.num, q))
    ensures SystemReachable(k, s0, System(w', Some(c'))) && WellFormed(w')
  {
    hide SystemReachable, WellFormed, Enabled, Apply, WriteAt, Znodes.Check, LeaderStorage;
    SystemStep(k, s0, System(w, Some(c)), a);
  }

  /** An election reloads the cache. */
  lemma ElectStep(k: Codec, s0: Tree, w: World, cache: Option<Tree>, ring: set<string>, x: string)
    requires WellFormed(w) && ring <= w.followers && CanElect(w.nodes, ring, x) && x in w.nodes
    requires SystemReachable(k, s0, System(w, cache))
    ensures x in ring && ring <= w.nodes.Keys
    ensures SystemReachable(k, s0, System(StartTerm(w.nodes, ring, x), Loaded(StorageOf(k, s0, w.nodes[x].committed))))
    ensures WellFormed(StartTerm(w.nodes, ring, x))
  {
    ElectIsLawful(k, s0, w, cache, ring, x);
    hide *;
    SystemStep(k, s0, System(w, cache), Elect(ring, x));
  }

  lemma ElectIsLawful(k: Codec, s0: Tree, w: World, cache: Option<Tree>, ring: set<string>, x: string)
    requires WellFormed(w) && ring <= w.followers && CanElect(w.nodes, ring, x) && x in w.nodes
    ensures x in ring && ring <= w.nodes.Keys
    ensures var y, a := System(w, cache), Elect(ring, x);
            && Lawful(k, s0, y, a) && WellFormed(StartTerm(w.nodes, ring, x))
            && Step(k, s0, y, a) == System(StartTerm(w.nodes, ring, x), Loaded(StorageOf(k, s0, w.nodes[x].committed)))
  {
    hide StartTerm, Loaded, WriteAt, StorageOf, WellFormed;
    StartShape(w.nodes, ring, x) by { assert ring <= w.nodes.Keys && x in ring; }
    NotAWrite(w, ring, x);
  }

  lemma NotAWrite(w: World, ring: set<string>, x: string)
    ensures WriteAt(w, Elect(ring, x)) == None
  {
  }

  // ---- A term of two nodes, the third one gone ----

  /** Leader `b` and follower `c`, with what is on the links between them. */
  function Pair(a: string, b: string, c: string, na: Node, nb: Node, nc: Node, down: seq<ZabMsg>, up: seq<ZabMsg>): World {
    World(map[a := na, b := nb, c := nc], b, {c}, map[c := down], map[c := up], 1)
  }

  predicate Names(a: string, b: string, c: string) {
    a != b && a != c && b != c
  }

  lemma PairNodes(a: string, b: string, c: string, na: Node, nb: Node, nc: Node, n: Node)
    requires Names(a, b, c)
    ensures map[a := na, b := nb, c := nc][c := n] == map[a := na, b := nb, c := n]
    ensures map[a := na, b := nb, c := nc][b := n] == map[a := na, b := n, c := nc]
    ensures |map[a := na, b := nb, c := nc]| == 3
  {
    assert map[a := na, b := nb, c := nc].Keys == {a, b, c};
    assert |{a, b, c}| == 3;
  }

  lemma OneLink(c: string, before: seq<ZabMsg>, after: seq<ZabMsg>)
    ensures map[c := before][c := after] == map[c := after]
  {
  }

  lemma FollowerHears(a: string, b: string, c: string, na: Node, nb: Node, nc: Node, m: ZabMsg, f: Node)
    requires Names(a, b, c) && !nc.stopped && f == Process(nc, NetMsg(b, m), Denied([]), 3)
    ensures Takes(Pair(a, b, c, na, nb, nc, [m], []), DeliverDown(c), Pair(a, b, c, na, nb, f, [], []))
  {
    hide Process, Takes;
    PairNodes(a, b, c, na, nb, nc, f);
    assert [m] + [] == [m];
    OneLink(c, [m], []);
    FollowerReceives(Pair(a, b, c, na, nb, nc, [m], []), c, m, [], f);
  }

  lemma FollowerAnswers(a: string, b: string, c: string, na: Node, nb: Node, nc: Node, m: ZabMsg)
    requires Names(a, b, c) && nc.outbox == [To(b, m)]
    ensures Takes(Pair(a, b, c, na, nb, nc, [], []), SendNext(c), Pair(a, b, c, na, nb, nc.(outbox := []), [], [m]))
  {
    hide Takes;
    PairNodes(a, b, c, na, nb, nc, nc.(outbox := []));
    assert [] + [m] == [m];
    OneLink(c, [], [m]);
    FollowerSends(Pair(a, b, c, na, nb, nc, [], []), c, m);
  }

  lemma LeaderHears(a: string, b: string, c: string, na: Node, nb: Node, nc: Node, m: ZabMsg, n: Node)
    requires Names(a, b, c) && !nb.stopped && !IsWrite(m) && n == Process(nb, NetMsg(c, m), Denied([]), 3)
    ensures Takes(Pair(a, b, c, na, nb, nc, [], [m]), DeliverUp(c, Denied([])), Pair(a, b, c, na, n, nc, [], []))
  {
    hide Process, Takes;
    PairNodes(a, b, c, na, nb, nc, n);
    OneLink(c, [m], []);
    LeaderReceives(Pair(a, b, c, na, nb, nc, [], [m]), c, m, n);
  }

  lemma LeaderAnswers(a: string, b: string, c: string, na: Node, nb: Node, nc: Node, m: ZabMsg)
    requires Names(a, b, c) && (nb.outbox == [To(c, m)] || nb.outbox == [Broadcast(m)])
    ensures Takes(Pair(a, b, c, na, nb, nc, [], []), SendNext(b), Pair(a, b, c, na, nb.(outbox := []), nc, [m], []))
  {
    hide Takes;
    var w := Pair(a, b, c, na, nb, nc, [], []);
    PairNodes(a, b, c, na, nb, nc, nb.(outbox := []));
    assert [] + [m] == [m] && nb.outbox[1..] == [];
    OneLink(c, [], [m]);
    if nb.outbox == [To(c, m)] {
      LeaderSendsTo(w, c, m);
    } else {
      LeaderBroadcasts(w, m);
      assert (map i | i in w.followers :: w.down[i] + [m]) == map[c := [m]];
    }
  }

  lemma LeaderSendsOld(a: string, b: string, c: string, na: Node, nb: Node, nc: Node, m: ZabMsg, out: seq<Outgoing>)
    requires Names(a, b, c) && nb.outbox == [To(a, m)] + out
    ensures Takes(Pair(a, b, c, na, nb, nc, [], []), SendNext(b), Pair(a, b, c, na, nb.(outbox := out), nc, [], []))
  {
    hide Takes;
    PairNodes(a, b, c, na, nb, nc, nb.(outbox := out));
    assert nb.outbox[1..] == out;
    LeaderSendsTo(Pair(a, b, c, na, nb, nc, [], []), a, m);
  }

  // ---- The nodes of the run ----

  function SecondTermFirst(content: seq<byte>): Proposal {
    Proposal(STATE_CHANGE, 1, 1, content)
  }

  function Call(): Proposal {
    NewLeaderProposal(1, 1)
  }

  /** The new leader, with the old leader's proposal still in its queue. */
  function Heir(b: string, p: Proposal): Node {
    Rookie(b, b).(epoch := 1, saved := [p, Call()], queue := [p], currentSync := Call(), syncing := true, waiting := 1)
  }

  function OpenHeir(b: string, p: Proposal): Node {
    Heir(b, p).(waiting := 0, processing := true, syncing := false)
  }

  function BusyHeir(b: string, p: Proposal, q: Proposal): Node {
    OpenHeir(b, p).(count := 1, acks := map[q.Id() := 1], queue := [p, q], saved := [p, Call(), q])
  }

  /** The follower, from hearing the call to having committed both proposals. */
  function Hears(c: string, b: string): Node {
    Rookie(c, b).(saved := [Call()], track := SyncTracker(true, 1, Call()))
  }

  function Synced(c: string, b: string, p: Proposal): Node {
    Rookie(c, b).(count := 1, saved := [Call(), p], committed := [p], track := SyncTracker(false, 1, Call()), finished := 1)
  }

  function Holds(c: string, b: string, p: Proposal, q: Proposal): Node {
    Synced(c, b, p).(epoch := 1, saved := [Call(), p, q], queue := [q])
  }

  function HasBoth(c: string, b: string, p: Proposal, q: Proposal): Node {
    Holds(c, b, p, q).(queue := [], committed := [p, q])
  }

  lemma HeirStarts(b: string, a: string, p: Proposal)
    requires p.epoch == 0 && p.count == 1
    ensures var n := Rookie(b, a).(count := 1, saved := [p], queue := [p], outbox := [To(a, Ack(p))]);
            SendNewLeader(n.(coordinator := b), 2) == Heir(b, p).(outbox := [To(a, Ack(p))] + [Broadcast(Prop(Call()))])
  {
    hide Uint32ToBytes;
    assert [p] + [Call()] == [p, Call()];
  }

  lemma CallHeard(c: string, b: string)
    requires c != b
    ensures Process(Rookie(c, b), NetMsg(b, Prop(Call())), Denied([]), 3) == Hears(c, b).(outbox := [To(b, SYNC_FROM_START)])
  {
    Uint32RoundTrip(1, []);
  }

  lemma ReplyToHeir(p: Proposal, req: Request)
    requires IsStateChange(p) && p.epoch == 0 && p.count == 1 && p.content != [] && req.content == Uint32ToBytes(0)
    ensures Reply([p, Call()], 1, 0, req) == [Prop(p)]
  {
    var saved, one := [p, Call()], [p];
    Uint32RoundTrip(0, []);
    assert saved[..1] == one && one[..0] == [];
    assert EpochRecords(one, 0) == one;
    assert EpochRecords(saved, 0) == one;
    hide EpochRecords, Uint32ToBytes, BytesToUint32, Call;
    assert one[..|one| - 1] == [] && HasContent(one) && LastK(one, 1) == one;
    assert one[1..] == [] && AsMessages(one) == [Prop(p)];
    assert ReplyFrom(saved, 1, 0, 1, 0, req) == [];
    assert EarlierEpoch(one, 0, req) == [Prop(p)];
    assert ReplyFrom(saved, 0, 0, 1, 0, req) == EarlierEpoch(one, 0, req) + ReplyFrom(saved, 1, 0, 1, 0, req);
  }

  lemma HeirReplies(b: string, c: string, p: Proposal)
    requires b != c && IsStateChange(p) && p.epoch == 0 && p.count == 1 && p.content != []
    ensures Process(Heir(b, p), NetMsg(c, SYNC_FROM_START), Denied([]), 3) == Heir(b, p).(outbox := [To(c, Prop(p))])
  {
    ReplyToHeir(p, SYNC_FROM_START.req);
    SendAllEffect(Heir(b, p), [Prop(p)], c);
    AddressedOne(Prop(p), c);
    hide Reply, Uint32ToBytes, SendAll;
  }

  lemma MissingHeard(c: string, b: string, p: Proposal)
    requires c != b && IsStateChange(p) && p.epoch == 0 && p.count == 1
    ensures Process(Hears(c, b), NetMsg(b, Prop(p)), Denied([]), 3) == Synced(c, b, p).(outbox := [To(b, Ack(Call()))])
  {
    hide Uint32ToBytes;
    assert [Call()] + [p] == [Call(), p];
  }

  lemma HeirOpens(b: string, c: string, p: Proposal)
    ensures Process(Heir(b, p), NetMsg(c, Ack(Call())), Denied([]), 3) == OpenHeir(b, p)
  {
    hide Uint32ToBytes;
  }

  lemma HeirProposes(b: string, p: Proposal, content: seq<byte>)
    ensures var q := SecondTermFirst(content);
            Proposed(OpenHeir(b, p), content) == BusyHeir(b, p, q).(outbox := [Broadcast(Prop(q))])
  {
    hide Uint32ToBytes;
    var q := SecondTermFirst(content);
    assert NextProposal(OpenHeir(b, p), content) == q;
    assert [p] + [q] == [p, q] && [p, Call()] + [q] == [p, Call(), q];
  }

  lemma SecondHeard(c: string, b: string, p: Proposal, q: Proposal)
    requires c != b && IsStateChange(q) && q.epoch == 1 && q.count == 1
    ensures Process(Synced(c, b, p), NetMsg(b, Prop(q)), Denied([]), 3) == Holds(c, b, p, q).(outbox := [To(b, Ack(q))])
  {
    hide Uint32ToBytes;
    assert [Call(), p] + [q] == [Call(), p, q];
  }

  /** The quorum for the second proposal commits the first. */
  lemma HeirCommits(b: string, c: string, p: Proposal, q: Proposal)
    requires IsStateChange(q)
    ensures Process(BusyHeir(b, p, q), NetMsg(c, Ack(q)), Denied([]), 3)
      == BusyHeir(b, p, q).(acks := map[q.Id() := 0], queue := [q], committed := [p], outbox := [Broadcast(COMMIT_MSG)])
  {
    hide Uint32ToBytes;
    assert [p, q][1..] == [q];
    assert map[q.Id() := 1][q.Id() := 0] == map[q.Id() := 0];
  }

  lemma CommitHeard(c: string, b: string, p: Proposal, q: Proposal)
    requires c != b
    ensures Process(Holds(c, b, p, q), NetMsg(b, COMMIT_MSG), Denied([]), 3) == HasBoth(c, b, p, q)
  {
    hide Uint32ToBytes;
    assert [q][1..] == [] && [p] + [q] == [p, q];
  }

  // ---- The run ----

  /** A request, as it is submitted and as it is proposed. */
  ghost predicate Accepts(k: Codec, s0: Tree, x: seq<byte>, r: WriteRequest, q: WriteRequest) {
    && k.parse(x) == Some(r) && Znodes.Check(s0, s0, r).0 == Znodes.Ok(q)
    && 0 < |k.pack(0, q)| < 0x1000_0000
  }

  ghost predicate FirstReached(w: World, a: string, b: string, c: string, p: Proposal) {
    && WellFormed(w) && w.nodes.Keys == {a, b, c} && w.leader == a && w.followers == {b, c}
    && w.nodes[b] == Rookie(b, a).(count := 1, saved := [p], queue := [p], outbox := [To(a, Ack(p))])
    && w.nodes[c] == Rookie(c, a)
  }

  /** The first term, in which only the leader has done anything. */
  ghost predicate OnlyLeaderActed(w: World, a: string, b: string, c: string, na: Node) {
    && WellFormed(w) && w.nodes.Keys == {a, b, c} && w.leader == a && w.followers == {b, c} && w.nodes[a] == na
    && forall i :: i in w.followers ==> w.nodes[i] == Rookie(i, a) && w.down[i] == [] && w.up[i] == []
  }

  lemma Begins(k: Codec, s0: Tree, a: string, b: string, c: string) returns (w: World)
    requires Names(a, b, c) && Loaded(s0) == Some(s0)
    ensures SystemReachable(k, s0, System(w, Some(s0))) && OnlyLeaderActed(w, a, b, c, Rookie(a, a).(processing := true))
  {
    hide SystemReachable, Reachable, Init, Loaded, Rookie;
    assert |{a, b, c}| == 3;
    w := FirstTerm({a, b, c}, a);
    assert {a, b, c} - {a} == {b, c};
    SystemStarts(k, s0, System(w, Some(s0)));
  }

  lemma Submits(k: Codec, s0: Tree, a: string, b: string, c: string, x: seq<byte>, w: World) returns (w': World)
    requires Names(a, b, c) && SystemReachable(k, s0, System(w, Some(s0)))
    requires OnlyLeaderActed(w, a, b, c, Rookie(a, a).(processing := true))
    ensures SystemReachable(k, s0, System(w', Some(s0)))
    ensures OnlyLeaderActed(w', a, b, c, Rookie(a, a).(processing := true, inbox := [NetMsg(a, Req(Request(Write, 0, x)))]))
  {
    hide SystemReachable, Takes;
    LeaderSubmitsOwn(w, 0, x);
    w' := w.(nodes := w.nodes[a := w.nodes[a].(inbox := [NetMsg(a, Req(Request(Write, 0, x)))])]);
    QuietStep(k, s0, w, Some(s0), Submit(a, 0, x), w');
  }

  function FirstLeader(a: string, p: Proposal): Node {
    Rookie(a, a).(processing := true, count := 1, acks := map[p.Id() := 1], queue := [p], saved := [p], outbox := [Broadcast(Prop(p))])
  }

  lemma FirstLeaderProposes(a: string, x: seq<byte>, y: seq<byte>)
    ensures var n := Rookie(a, a).(processing := true, inbox := [NetMsg(a, Req(Request(Write, 0, x)))]);
            Proposed(n, y) == FirstLeader(a, FirstOf(y))
  {
    var n, p := Rookie(a, a).(processing := true, inbox := [NetMsg(a, Req(Request(Write, 0, x)))]), FirstOf(y);
    assert NextProposal(n, y) == p;
    assert [] + [p] == [p] && [] + [Broadcast(Prop(p))] == [Broadcast(Prop(p))];
  }

  lemma FirstProposed(k: Codec, s0: Tree, a: string, b: string, c: string, x: seq<byte>, r: WriteRequest, q: WriteRequest, w: World)
    returns (w': World, cache: Tree)
    requires Names(a, b, c) && SystemReachable(k, s0, System(w, Some(s0))) && Accepts(k, s0, x, r, q)
    requires OnlyLeaderActed(w, a, b, c, Rookie(a, a).(processing := true, inbox := [NetMsg(a, Req(Request(Write, 0, x)))]))
    ensures SystemReachable(k, s0, System(w', Some(cache)))
    ensures OnlyLeaderActed(w', a, b, c, FirstLeader(a, FirstOf(k.pack(0, q))))
  {
    hide SystemReachable, Takes;
    var y := k.pack(0, q);
    LeaderProposes(w, Request(Write, 0, x), y);
    FirstLeaderProposes(a, x, y);
    w' := w.(nodes := w.nodes[a := Proposed(w.nodes[a], y)]);
    cache := Znodes.Check(s0, s0, r).1;
    NothingCommitted(k, s0, w);
    var act := ProcessOwn(a, Accepted(y));
    assert WriteAt(w, act) == Some(Request(Write, 0, x));
    hide Proposed, FirstLeader, LeaderStorage;
    AcceptStep(k, s0, w, s0, act, w', r, q, cache);
  }

  lemma NothingCommitted(k: Codec, s0: Tree, w: World)
    requires w.leader in w.nodes && w.nodes[w.leader].committed == []
    ensures LeaderStorage(k, s0, w) == s0
  {
  }

  /** The first leader's proposal reaches `b` only. */
  lemma FirstTermRun(k: Codec, s0: Tree, a: string, b: string, c: string, x: seq<byte>, r: WriteRequest, q: WriteRequest)
    returns (w: World, cache: Tree)
    requires Names(a, b, c) && Loaded(s0) == Some(s0) && Accepts(k, s0, x, r, q)
    ensures SystemReachable(k, s0, System(w, Some(cache))) && FirstReached(w, a, b, c, FirstOf(k.pack(0, q)))
  {
    hide SystemReachable, Takes, Accepts, Loaded, OnlyLeaderActed;
    var w0 := Begins(k, s0, a, b, c);
    var w1 := Submits(k, s0, a, b, c, x, w0);
    var w2;
    w2, cache := FirstProposed(k, s0, a, b, c, x, r, q, w1);
    w := ReachesB(k, s0, a, b, c, FirstOf(k.pack(0, q)), cache, w2);
  }

  lemma ReachesB(k: Codec, s0: Tree, a: string, b: string, c: string, p: Proposal, cache: Tree, w0: World) returns (w: World)
    requires Names(a, b, c) && SystemReachable(k, s0, System(w0, Some(cache))) && OnlyLeaderActed(w0, a, b, c, FirstLeader(a, p))
    requires IsStateChange(p) && p.epoch == 0 && p.count == 1
    ensures SystemReachable(k, s0, System(w, Some(cache))) && FirstReached(w, a, b, c, p)
  {
    hide SystemReachable, Takes, Process;
    LeaderBroadcasts(w0, Prop(p));
    var w1 := w0.(nodes := w0.nodes[a := w0.nodes[a].(outbox := [])], down := map i | i in w0.followers :: w0.down[i] + [Prop(p)]);
    QuietStep(k, s0, w0, Some(cache), SendNext(a), w1);
    var f := Rookie(b, a).(count := 1, saved := [p], queue := [p], outbox := [To(a, Ack(p))]);
    QueuesFirst(b, a, p, |w1.nodes|);
    assert [] + [Prop(p)] == [Prop(p)] + [];
    FollowerReceives(w1, b, Prop(p), [], f);
    w := w1.(nodes := w1.nodes[b := f], down := w1.down[b := []]);
    QuietStep(k, s0, w1, Some(cache), DeliverDown(b), w);
  }

  lemma HeirElected(w: World, a: string, b: string, c: string, p: Proposal)
    requires Names(a, b, c) && FirstReached(w, a, b, c, p) && p.epoch == 0 && p.count == 1
    ensures CanElect(w.nodes, {b, c}, b) && {b, c} <= w.followers && {b, c} <= w.nodes.Keys && a in w.nodes
    ensures StartTerm(w.nodes, {b, c}, b)
      == Pair(a, b, c, w.nodes[a], Heir(b, p).(outbox := [To(a, Ack(p))] + [Broadcast(Prop(Call()))]), Rookie(c, b), [], [])
  {
    hide SendNewLeader, Heir, StartTerm;
    HeirMayLead(w, a, b, c, p);
    HeirStarts(b, a, p);
    RookieMoves(c, a, b);
    StartShape(w.nodes, {b, c}, b);
    hide Rookie, CanElect;
    var v := StartTerm(w.nodes, {b, c}, b);
    assert {b, c} - {b} == {c} && |{b, c}| == 2;
    HeirQueue(b, p, [To(a, Ack(p))] + [Broadcast(Prop(Call()))]);
    IsPair(v, a, b, c);
  }

  lemma HeirMayLead(w: World, a: string, b: string, c: string, p: Proposal)
    requires Names(a, b, c) && FirstReached(w, a, b, c, p)
    ensures CanElect(w.nodes, {b, c}, b)
  {
    assert |{a, b, c}| == 3 && |w.nodes.Keys| == |w.nodes| && |{b, c}| == 2;
  }

  /** A term of two nodes with nothing on its links. */
  lemma IsPair(v: World, a: string, b: string, c: string)
    requires Names(a, b, c) && WellFormed(v) && v.nodes.Keys == {a, b, c} && v.leader == b && v.followers == {c} && v.lag == 1
    requires v.down[c] == [] && v.up[c] == []
    ensures v == Pair(a, b, c, v.nodes[a], v.nodes[b], v.nodes[c], [], [])
  {
    assert v.nodes == map[a := v.nodes[a], b := v.nodes[b], c := v.nodes[c]];
    assert v.down == map[c := []] && v.up == map[c := []];
  }

  lemma HeirQueue(b: string, p: Proposal, out: seq<Outgoing>)
    ensures |Heir(b, p).(outbox := out).queue| == 1
  {
  }

  /** The new term up to its opening: its cache is the storage without the first request. */
  lemma HeirTerm(k: Codec, s0: Tree, a: string, b: string, c: string, x: seq<byte>, r: WriteRequest, q: WriteRequest)
    returns (na: Node)
    requires Names(a, b, c) && Loaded(s0) == Some(s0) && Accepts(k, s0, x, r, q)
    ensures var p := FirstOf(k.pack(0, q));
            SystemReachable(k, s0, System(Pair(a, b, c, na, Heir(b, p), Rookie(c, b), [Prop(Call())], []), Some(s0)))
  {
    var p := FirstOf(k.pack(0, q));
    hide SystemReachable, Takes, Accepts, Loaded, StartTerm, CanElect;
    var w, cache := FirstTermRun(k, s0, a, b, c, x, r, q);
    HeirElected(w, a, b, c, p);
    ElectStep(k, s0, w, Some(cache), {b, c}, b);
    assert StorageOf(k, s0, w.nodes[b].committed) == s0;
    na := w.nodes[a];
    hide Heir, Rookie, Pair, FirstReached, StorageOf;
    var out := [Broadcast(Prop(Call()))];
    HeirPlain(b, p);
    LeaderSendsOld(a, b, c, na, Heir(b, p).(outbox := [To(a, Ack(p))] + out), Rookie(c, b), Ack(p), out);
    PairQuietly(k, s0, a, b, c, na, Heir(b, p).(outbox := [To(a, Ack(p))] + out), Rookie(c, b), [], [], Some(s0), SendNext(b),
                Heir(b, p).(outbox := out), Rookie(c, b), [], []);
    LeaderAnswers(a, b, c, na, Heir(b, p).(outbox := out), Rookie(c, b), Prop(Call()));
    PairQuietly(k, s0, a, b, c, na, Heir(b, p).(outbox := out), Rookie(c, b), [], [], Some(s0), SendNext(b),
                Heir(b, p), Rookie(c, b), [Prop(Call())], []);
  }

  lemma HeirPlain(b: string, p: Proposal)
    ensures Heir(b, p).(outbox := []) == Heir(b, p) && !Heir(b, p).stopped && !OpenHeir(b, p).stopped
    ensures Heir(b, p).outbox == [] && OpenHeir(b, p).(outbox := []) == OpenHeir(b, p)
  {
  }

  /** A quiet step between two states of the pair. */
  lemma PairQuietly(k: Codec, s0: Tree, a: string, b: string, c: string, na: Node, nb: Node, nc: Node, down: seq<ZabMsg>,
                    up: seq<ZabMsg>, cache: Option<Tree>, act: Action, nb': Node, nc': Node, down': seq<ZabMsg>, up': seq<ZabMsg>)
    requires SystemReachable(k, s0, System(Pair(a, b, c, na, nb, nc, down, up), cache))
    requires Takes(Pair(a, b, c, na, nb, nc, down, up), act, Pair(a, b, c, na, nb', nc', down', up'))
    requires act.SendNext? || act.DeliverDown? || act.Submit? || (act == DeliverUp(c, Denied([])) && up != [] && !IsWrite(up[0]))
    ensures SystemReachable(k, s0, System(Pair(a, b, c, na, nb', nc', down', up'), cache))
  {
    hide SystemReachable, Takes;
    var w := Pair(a, b, c, na, nb, nc, down, up);
    assert w.leader == b && (act.DeliverUp? ==> c in w.up && w.up[c] == up);
    assert WriteAt(w, act) == None;
    QuietStep(k, s0, w, cache, act, Pair(a, b, c, na, nb', nc', down', up'));
  }

  lemma PlainNodes(c: string, b: string, p: Proposal, q: Proposal)
    ensures Hears(c, b).(outbox := []) == Hears(c, b) && Synced(c, b, p).(outbox := []) == Synced(c, b, p)
    ensures Holds(c, b, p, q).(outbox := []) == Holds(c, b, p, q) && BusyHeir(b, p, q).(outbox := []) == BusyHeir(b, p, q)
    ensures !Rookie(c, b).stopped && !Hears(c, b).stopped && !Synced(c, b, p).stopped && !Holds(c, b, p, q).stopped
    ensures !BusyHeir(b, p, q).stopped
  {
  }

  /** The follower asks for what it misses and gets it. */
  lemma SyncRequested(k: Codec, s0: Tree, a: string, b: string, c: string, na: Node, p: Proposal, cache: Option<Tree>)
    requires Names(a, b, c) && IsStateChange(p) && p.epoch == 0 && p.count == 1 && p.content != []
    requires SystemReachable(k, s0, System(Pair(a, b, c, na, Heir(b, p), Rookie(c, b), [Prop(Call())], []), cache))
    ensures SystemReachable(k, s0, System(Pair(a, b, c, na, Heir(b, p), Hears(c, b), [Prop(p)], []), cache))
  {
    hide SystemReachable, Takes, Process, Pair;
    var h, out := Heir(b, p), Hears(c, b).(outbox := [To(b, SYNC_FROM_START)]);
    HeirPlain(b, p);
    PlainNodes(c, b, p, p);
    CallHeard(c, b);
    HeirReplies(b, c, p);
    hide Heir, Hears, Rookie, Call;
    FollowerHears(a, b, c, na, h, Rookie(c, b), Prop(Call()), out);
    PairQuietly(k, s0, a, b, c, na, h, Rookie(c, b), [Prop(Call())], [], cache, DeliverDown(c), h, out, [], []);
    FollowerAnswers(a, b, c, na, h, out, SYNC_FROM_START);
    PairQuietly(k, s0, a, b, c, na, h, out, [], [], cache, SendNext(c), h, Hears(c, b), [], [SYNC_FROM_START]);
    LeaderHears(a, b, c, na, h, Hears(c, b), SYNC_FROM_START, h.(outbox := [To(c, Prop(p))]));
    PairQuietly(k, s0, a, b, c, na, h, Hears(c, b), [], [SYNC_FROM_START], cache, DeliverUp(c, Denied([])),
                h.(outbox := [To(c, Prop(p))]), Hears(c, b), [], []);
    LeaderAnswers(a, b, c, na, h.(outbox := [To(c, Prop(p))]), Hears(c, b), Prop(p));
    PairQuietly(k, s0, a, b, c, na, h.(outbox := [To(c, Prop(p))]), Hears(c, b), [], [], cache, SendNext(b),
                h, Hears(c, b), [Prop(p)], []);
  }

  /** It commits the first proposal, and its acknowledgement opens the term. */
  lemma TermOpens(k: Codec, s0: Tree, a: string, b: string, c: string, na: Node, p: Proposal, cache: Option<Tree>)
    requires Names(a, b, c) && IsStateChange(p) && p.epoch == 0 && p.count == 1
    requires SystemReachable(k, s0, System(Pair(a, b, c, na, Heir(b, p), Hears(c, b), [Prop(p)], []), cache))
    ensures SystemReachable(k, s0, System(Pair(a, b, c, na, OpenHeir(b, p), Synced(c, b, p), [], []), cache))
  {
    hide SystemReachable, Takes, Process, Pair;
    var h, m := Heir(b, p), Ack(Call());
    HeirPlain(b, p);
    PlainNodes(c, b, p, p);
    MissingHeard(c, b, p);
    HeirOpens(b, c, p);
    hide Heir, Hears, Synced, OpenHeir, Call;
    FollowerHears(a, b, c, na, h, Hears(c, b), Prop(p), Synced(c, b, p).(outbox := [To(b, m)]));
    PairQuietly(k, s0, a, b, c, na, h, Hears(c, b), [Prop(p)], [], cache, DeliverDown(c),
                h, Synced(c, b, p).(outbox := [To(b, m)]), [], []);
    FollowerAnswers(a, b, c, na, h, Synced(c, b, p).(outbox := [To(b, m)]), m);
    PairQuietly(k, s0, a, b, c, na, h, Synced(c, b, p).(outbox := [To(b, m)]), [], [], cache, SendNext(c),
                h, Synced(c, b, p), [], [m]);
    LeaderHears(a, b, c, na, h, Synced(c, b, p), m, OpenHeir(b, p));
    PairQuietly(k, s0, a, b, c, na, h, Synced(c, b, p), [], [m], cache, DeliverUp(c, Denied([])),
                OpenHeir(b, p), Synced(c, b, p), [], []);
  }

  /** The next request is checked against the storage without the first one. */
  lemma SecondAccepted(k: Codec, s0: Tree, a: string, b: string, c: string, na: Node, p: Proposal, x: seq<byte>, r: WriteRequest,
                       q: WriteRequest) returns (cache: Tree)
    requires Names(a, b, c) && Accepts(k, s0, x, r, q)
    requires SystemReachable(k, s0, System(Pair(a, b, c, na, OpenHeir(b, p), Synced(c, b, p), [], []), Some(s0)))
    ensures var p2 := SecondTermFirst(k.pack(0, q));
            SystemReachable(k, s0, System(Pair(a, b, c, na, BusyHeir(b, p, p2), Synced(c, b, p), [Prop(p2)], []), Some(cache)))
  {
    hide SystemReachable, Takes;
    var h, f, y := OpenHeir(b, p), Synced(c, b, p), k.pack(0, q);
    var p2, req := SecondTermFirst(y), Request(Write, 0, x);
    var h1 := h.(inbox := [NetMsg(b, Req(req))]);
    PairNodes(a, b, c, na, h, f, h1);
    var w, w1 := Pair(a, b, c, na, h, f, [], []), Pair(a, b, c, na, h1, f, [], []);
    LeaderSubmitsOwn(w, 0, x);
    PairQuietly(k, s0, a, b, c, na, h, f, [], [], Some(s0), Submit(b, 0, x), h1, f, [], []);
    LeaderProposes(w1, req, y);
    HeirProposes(b, p, y);
    var h2 := BusyHeir(b, p, p2).(outbox := [Broadcast(Prop(p2))]);
    assert Proposed(h1, y) == Proposed(h, y);
    PairNodes(a, b, c, na, h1, f, h2);
    var w2 := Pair(a, b, c, na, h2, f, [], []);
    var act := ProcessOwn(b, Accepted(y));
    cache := Znodes.Check(s0, s0, r).1;
    NothingCommitted(k, s0, w1);
    assert WriteAt(w1, act) == Some(req);
    hide Proposed, LeaderStorage, BusyHeir, OpenHeir;
    AcceptStep(k, s0, w1, s0, act, w2, r, q, cache);
    PlainNodes(c, b, p, p2);
    LeaderAnswers(a, b, c, na, h2, f, Prop(p2));
    PairQuietly(k, s0, a, b, c, na, h2, f, [], [], Some(cache), SendNext(b), BusyHeir(b, p, p2), f, [Prop(p2)], []);
  }

  /** The follower commits the second proposal too. */
  lemma BothCommitted(k: Codec, s0: Tree, a: string, b: string, c: string, na: Node, p: Proposal, q: Proposal, cache: Option<Tree>)
    returns (nb: Node)
    requires Names(a, b, c) && IsStateChange(q) && q.epoch == 1 && q.count == 1
    requires SystemReachable(k, s0, System(Pair(a, b, c, na, BusyHeir(b, p, q), Synced(c, b, p), [Prop(q)], []), cache))
    ensures SystemReachable(k, s0, System(Pair(a, b, c, na, nb, HasBoth(c, b, p, q), [], []), cache))
    ensures nb.saved == [p, Call(), q] && nb.name == b
  {
    hide SystemReachable, Takes, Process, Pair;
    var h, g, f := BusyHeir(b, p, q), Holds(c, b, p, q), Synced(c, b, p);
    PlainNodes(c, b, p, q);
    SecondHeard(c, b, p, q);
    HeirCommits(b, c, p, q);
    CommitHeard(c, b, p, q);
    nb := h.(acks := map[q.Id() := 0], queue := [q], committed := [p]);
    var h1 := nb.(outbox := [Broadcast(COMMIT_MSG)]);
    assert h1.(outbox := []) == nb;
    hide BusyHeir, Holds, Synced, HasBoth;
    FollowerHears(a, b, c, na, h, f, Prop(q), g.(outbox := [To(b, Ack(q))]));
    PairQuietly(k, s0, a, b, c, na, h, f, [Prop(q)], [], cache, DeliverDown(c), h, g.(outbox := [To(b, Ack(q))]), [], []);
    FollowerAnswers(a, b, c, na, h, g.(outbox := [To(b, Ack(q))]), Ack(q));
    PairQuietly(k, s0, a, b, c, na, h, g.(outbox := [To(b, Ack(q))]), [], [], cache, SendNext(c), h, g, [], [Ack(q)]);
    LeaderHears(a, b, c, na, h, g, Ack(q), h1);
    PairQuietly(k, s0, a, b, c, na, h, g, [], [Ack(q)], cache, DeliverUp(c, Denied([])), h1, g, [], []);
    LeaderAnswers(a, b, c, na, h1, g, COMMIT_MSG);
    PairQuietly(k, s0, a, b, c, na, h1, g, [], [], cache, SendNext(b), nb, g, [COMMIT_MSG], []);
    FollowerHears(a, b, c, na, nb, g, COMMIT_MSG, HasBoth(c, b, p, q));
    PairQuietly(k, s0, a, b, c, na, nb, g, [COMMIT_MSG], [], cache, DeliverDown(c), nb, HasBoth(c, b, p, q), [], []);
  }

  /** Two requests that the check accepts one by one on the same tree can both be committed by a
      follower: the first was still queued when its holder was elected and loaded its cache. */
  lemma BothFromOneTree(k: Codec, s0: Tree, a: string, b: string, c: string, x1: seq<byte>, r1: WriteRequest, q1: WriteRequest,
                        x2: seq<byte>, r2: WriteRequest, q2: WriteRequest) returns (y: System)
    requires Names(a, b, c) && Sound(k) && Loaded(s0) == Some(s0) && Accepts(k, s0, x1, r1, q1) && Accepts(k, s0, x2, r2, q2)
    ensures SystemReachable(k, s0, y) && y.w.leader == b && y.w.followers == {c} && b in y.w.nodes && c in y.w.nodes
    ensures Decoded(k, y.w.nodes[c].committed) == [q1, q2]
    ensures Decoded(k, LeaderLogOf(y.w)) == [q1, q2]
  {
    assert 0 < |k.pack(0, q1)|;
    hide SystemReachable, Loaded, Accepts, Sound;
    var p, q := FirstOf(k.pack(0, q1)), SecondTermFirst(k.pack(0, q2));
    var na := HeirTerm(k, s0, a, b, c, x1, r1, q1);
    SyncRequested(k, s0, a, b, c, na, p, Some(s0));
    TermOpens(k, s0, a, b, c, na, p, Some(s0));
    var cache := SecondAccepted(k, s0, a, b, c, na, p, x2, r2, q2);
    var nb := BothCommitted(k, s0, a, b, c, na, p, q, Some(cache));
    y := System(Pair(a, b, c, na, nb, HasBoth(c, b, p, q), [], []), Some(cache));
    BothDecoded(k, p, q, q1, q2);
    HeirLog(nb, p, q);
  }

  lemma BothDecoded(k: Codec, p: Proposal, q: Proposal, q1: WriteRequest, q2: WriteRequest)
    requires Sound(k) && p.content == k.pack(0, q1) && q.content == k.pack(0, q2)
    ensures Decoded(k, [p, q]) == [q1, q2]
  {
    assert k.unpack(k.pack(0, q1)) == Some(q1) && k.unpack(k.pack(0, q2)) == Some(q2);
    DecodedOneMore(k, [], p, q1);
    DecodedOneMore(k, [p], q, q2);
    assert [] + [p] == [p] && [p] + [q] == [p, q];
  }

  lemma HeirLog(nb: Node, p: Proposal, q: Proposal)
    requires nb.saved == [p, Call(), q] && IsStateChange(p) && IsStateChange(q)
    ensures Log(nb) == [p, q]
  {
    StateChangesAppend([], p);
    StateChangesAppend([p], Call());
    StateChangesAppend([p, Call()], q);
    assert [] + [p] == [p] && [p] + [Call()] == [p, Call()] && [p, Call()] + [q] == [p, Call(), q];
    assert [p] + [] == [p] && [p] + [q] == [p, q];
  }

  // ---- What goes wrong then ----

  lemma ReplayOfTwo(s: Tree, q1: WriteRequest, q2: WriteRequest)
    requires Znodes.Write(s, q1).0.Ok?
    ensures var (w, t) := Znodes.Write(Znodes.Write(s, q1).1, q2);
            ZnodeRuns.Replay(s, [q1, q2]) == match w case Ok(_) => Znodes.Ok(t) case Err(e) => Znodes.Err(e) case Panic => Znodes.Panic
  {
    hide Znodes.Write;
    assert [q1][..0] == [] && [q1, q2][..1] == [q1];
    assert ZnodeRuns.Replay(s, [q1]) == Znodes.Ok(Znodes.Write(s, q1).1);
  }

  /** An accepted request fails on a replica: with a delete still queued, the new leader accepts a
      create below the deleted znode, and the follower that applies both cannot write it. */
  lemma AcceptedCreateFails(k: Codec, s0: Tree, a: string, b: string, c: string, x1: seq<byte>, x2: seq<byte>,
                            path: Znodes.Path, name: string, data: Znodes.Data) returns (y: System)
    requires Names(a, b, c) && Sound(k) && Keyed(s0) && Loaded(s0) == Some(s0)
    requires path in s0 && path != [] && path != [Znodes.SESSION_DIR] && s0[path].ephemeral == "" && path + [name] !in s0
    requires var del := Znodes.WriteRequest(Znodes.Delete, [s0[path].(version := -1)]);
             var z := Znodes.ZNode(path + [name], data, 0, "", false, []);
             && k.parse(x1) == Some(del) && k.parse(x2) == Some(Znodes.WriteRequest(Znodes.Create, [z]))
             && 0 < |k.pack(0, del)| < 0x1000_0000
             && 0 < |k.pack(0, Znodes.WriteRequest(Znodes.Create, [z.(version := 1)]))| < 0x1000_0000
    ensures SystemReachable(k, s0, y) && c in y.w.Ring() && c in y.w.nodes
    ensures |y.w.nodes[c].committed| == 2 && Applied(k, s0, y.w.nodes[c].committed) == Znodes.Err(Znodes.ExistsError)
  {
    var del := Znodes.WriteRequest(Znodes.Delete, [s0[path].(version := -1)]);
    var z := Znodes.ZNode(path + [name], data, 0, "", false, []);
    var r2, q2 := Znodes.WriteRequest(Znodes.Create, [z]), Znodes.WriteRequest(Znodes.Create, [z.(version := 1)]);
    DeleteAccepted(s0, path);
    CreateAccepted(s0, path, z);
    hide SystemReachable, Loaded, Sound, Znodes.Check, Keyed;
    assert Accepts(k, s0, x1, del, del) && Accepts(k, s0, x2, r2, q2);
    y := BothFromOneTree(k, s0, a, b, c, x1, del, del, x2, r2, q2);
    CreateFails(s0, path, name, z.(version := 1));
    ReplayOfTwo(s0, del, q2);
  }

  lemma DeleteAccepted(s0: Tree, path: Znodes.Path)
    requires Loaded(s0) == Some(s0) && Keyed(s0) && path in s0 && path != [] && path != [Znodes.SESSION_DIR]
    ensures var del := Znodes.WriteRequest(Znodes.Delete, [s0[path].(version := -1)]);
            Znodes.Check(s0, s0, del).0 == Znodes.Ok(del)
  {
    LoadedIsAll(s0);
    hide Loaded;
  }

  lemma CreateAccepted(s0: Tree, path: Znodes.Path, z: Znodes.ZNode)
    requires path in s0 && s0[path].ephemeral == "" && |z.path| == |path| + 1 && z.path[..|path|] == path && z.path !in s0
    requires z.version == 0 && z.ephemeral == "" && !z.sequential
    ensures Znodes.Check(s0, s0, Znodes.WriteRequest(Znodes.Create, [z])).0
      == Znodes.Ok(Znodes.WriteRequest(Znodes.Create, [z.(version := 1)]))
  {
    assert [z][0 := z.(version := 1)] == [z.(version := 1)];
  }

  lemma DeletedIsGone(s0: Tree, path: Znodes.Path)
    requires Keyed(s0) && Loaded(s0) == Some(s0) && path in s0 && path != [] && path != [Znodes.SESSION_DIR]
    ensures var (w, t) := Znodes.Write(s0, Znodes.WriteRequest(Znodes.Delete, [s0[path].(version := -1)]));
            w.Ok? && path !in t
  {
    LoadedIsAll(s0);
    hide Loaded, Znodes.Without, Znodes.Base;
  }

  lemma OrphanCreateFails(t: Tree, path: Znodes.Path, z: Znodes.ZNode)
    requires path !in t && path != [] && path != [Znodes.SESSION_DIR] && Znodes.Dir(z.path) == path
    ensures Znodes.Write(t, Znodes.WriteRequest(Znodes.Create, [z])).0 == Znodes.Err(Znodes.ExistsError)
  {
    hide Znodes.Dir, Znodes.Base;
  }

  lemma ParentOfChild(path: Znodes.Path, name: string)
    ensures Znodes.Dir(path + [name]) == path
  {
  }

  lemma CreateFails(s0: Tree, path: Znodes.Path, name: string, z: Znodes.ZNode)
    requires Keyed(s0) && Loaded(s0) == Some(s0) && path in s0 && path != [] && path != [Znodes.SESSION_DIR]
    requires z.path == path + [name]
    ensures var del := Znodes.WriteRequest(Znodes.Delete, [s0[path].(version := -1)]);
            var (w, t) := Znodes.Write(s0, del);
            w.Ok? && Znodes.Write(t, Znodes.WriteRequest(Znodes.Create, [z])).0 == Znodes.Err(Znodes.ExistsError)
  {
    hide Loaded, Keyed, Znodes.Write, Znodes.Dir;
    var del := Znodes.WriteRequest(Znodes.Delete, [s0[path].(version := -1)]);
    ParentOfChild(path, name);
    DeletedIsGone(s0, path);
    OrphanCreateFails(Znodes.Write(s0, del).1, path, z);
  }

  /** An update is lost: with an update still queued, the new leader accepts a second one that expects
      the same version, and the follower that applies both keeps nothing of the first. */
  lemma QueuedUpdateIsLost(k: Codec, s0: Tree, a: string, b: string, c: string, x1: seq<byte>, x2: seq<byte>,
                           z1: Znodes.ZNode, z2: Znodes.ZNode) returns (y: System)
    requires Names(a, b, c) && Sound(k) && Loaded(s0) == Some(s0)
    requires z1.path in s0 && z2.path == z1.path && z1.version == z2.version == s0[z1.path].version >= 0
    requires var r1, r2 := Znodes.WriteRequest(Znodes.SetData, [z1]), Znodes.WriteRequest(Znodes.SetData, [z2]);
             var q1, q2 := Znodes.WriteRequest(Znodes.SetData, [z1.(version := z1.version + 1)]),
                           Znodes.WriteRequest(Znodes.SetData, [z2.(version := z2.version + 1)]);
             && k.parse(x1) == Some(r1) && k.parse(x2) == Some(r2)
             && 0 < |k.pack(0, q1)| < 0x1000_0000 && 0 < |k.pack(0, q2)| < 0x1000_0000
    ensures SystemReachable(k, s0, y) && c in y.w.Ring() && c in y.w.nodes && |y.w.nodes[c].committed| == 2
    ensures var t := Applied(k, s0, y.w.nodes[c].committed);
            t.Ok? && z1.path in t.value && t.value[z1.path] == z2.(version := z1.version + 1)
  {
    var r1, r2 := Znodes.WriteRequest(Znodes.SetData, [z1]), Znodes.WriteRequest(Znodes.SetData, [z2]);
    var q1, q2 := Znodes.WriteRequest(Znodes.SetData, [z1.(version := z1.version + 1)]),
                  Znodes.WriteRequest(Znodes.SetData, [z2.(version := z2.version + 1)]);
    UpdateAccepted(s0, z1);
    UpdateAccepted(s0, z2);
    assert Accepts(k, s0, x1, r1, q1) && Accepts(k, s0, x2, r2, q2);
    hide SystemReachable, Loaded, Sound, Znodes.Check, Accepts;
    y := BothFromOneTree(k, s0, a, b, c, x1, r1, q1, x2, r2, q2);
    ReplayOfTwo(s0, q1, q2);
    LastWins(s0, z1, z2);
    hide ZnodeRuns.Replay;
  }

  lemma UpdateAccepted(s0: Tree, z: Znodes.ZNode)
    requires z.path in s0 && z.version == s0[z.path].version >= 0
    ensures Znodes.Check(s0, s0, Znodes.WriteRequest(Znodes.SetData, [z])).0
      == Znodes.Ok(Znodes.WriteRequest(Znodes.SetData, [z.(version := z.version + 1)]))
  {
  }

  lemma LastWins(s0: Tree, z1: Znodes.ZNode, z2: Znodes.ZNode)
    requires z2.path == z1.path && z2.version == z1.version
    ensures var q1, q2 := Znodes.WriteRequest(Znodes.SetData, [z1.(version := z1.version + 1)]),
                          Znodes.WriteRequest(Znodes.SetData, [z2.(version := z2.version + 1)]);
            var (w, t) := Znodes.Write(Znodes.Write(s0, q1).1, q2);
            Znodes.Write(s0, q1).0.Ok? && w.Ok? && z1.path in t && t[z1.path] == z2.(version := z1.version + 1)
  {
  }
}
