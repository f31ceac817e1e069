/** A run of the whole system in which a leader is elected with everything committed, and what an
    update without children does to the cache it loads. */
module Reloads {
  import opened Zxid
  import opened Wrappers
  import opened Collections
  import opened Messages
  import opened Channel
  import opened AckCounting
  import opened ZabNode
  import opened FollowerSteps
  import opened Cluster
  import opened ClusterRuns
  import opened ClusterTheorems
  import opened Failovers
  import opened Replication
  import opened StaleCaches
  import opened ZnodeAgreement
  import opened ZnodeLoading
  import Znodes
  import ZnodeRuns
  import ZnodeStorage
  import PubSub
  import SeqNames
  import Topics

  // ---- One proposal, committed by the leader and by one follower ----

  /** The first term, in which only `a` and `b` have done anything. */
  ghost predicate Underway(w: World, a: string, b: string, c: string, na: Node, nb: Node, down: seq<ZabMsg>, up: seq<ZabMsg>) {
    && WellFormed(w) && w.nodes.Keys == {a, b, c} && w.leader == a && w.followers == {b, c}
    && w.nodes[a] == na && w.nodes[b] == nb && w.nodes[c] == Rookie(c, a) && w.down[b] == down && w.up[b] == up
  }

  /** The follower with the proposal queued, and with it committed. */
  function Queued(b: string, a: string, p: Proposal): Node {
    Rookie(b, a).(count := 1, saved := [p], queue := [p])
  }

  function Settled(b: string, a: string, p: Proposal): Node {
    Rookie(b, a).(count := 1, saved := [p], committed := [p])
  }

  function WaitsForAck(a: string, p: Proposal): Node {
    FirstLeader(a, p).(outbox := [])
  }

  function HasQuorum(a: string, p: Proposal): Node {
    WaitsForAck(a, p).(acks := map[p.Id() := 0], queue := [], committed := [p])
  }

  lemma QuorumReached(a: string, b: string, p: Proposal)
    requires IsStateChange(p)
    ensures Process(WaitsForAck(a, p), NetMsg(b, Ack(p)), Denied([]), 3) == HasQuorum(a, p).(outbox := [Broadcast(COMMIT_MSG)])
  {
    assert [p][1..] == [] && [] + [p] == [p];
    assert map[p.Id() := 1][p.Id() := 0] == map[p.Id() := 0];
  }

  lemma CommitSettles(b: string, a: string, p: Proposal)
    requires a != b
    ensures Process(Queued(b, a, p), NetMsg(a, COMMIT_MSG), Denied([]), 3) == Settled(b, a, p)
  {
    assert [p][1..] == [] && [] + [p] == [p];
  }

  lemma Shapes(a: string, b: string, p: Proposal)
    ensures !Rookie(b, a).stopped && !Queued(b, a, p).stopped && !WaitsForAck(a, p).stopped
    ensures Queued(b, a, p).(outbox := []) == Queued(b, a, p) && HasQuorum(a, p).(outbox := []) == HasQuorum(a, p)
    ensures FirstLeader(a, p).outbox == [Broadcast(Prop(p))]
  {
  }

  /** A quiet step of the first term. */
  lemma UnderwayStep(k: Codec, s0: Tree, cache: Option<Tree>, w: World, act: Action, w': World)
    requires SystemReachable(k, s0, System(w, cache)) && Takes(w, act, w')
    requires act.SendNext? || act.DeliverDown? || (act.DeliverUp? && act.node in w.up && w.up[act.node] != [] && !IsWrite(w.up[act.node][0]))
    ensures SystemReachable(k, s0, System(w', cache)) && WellFormed(w')
  {
    hide SystemReachable, Takes, WellFormed;
    QuietStep(k, s0, w, cache, act, w');
  }

  lemma Delivered(k: Codec, s0: Tree, a: string, b: string, c: string, p: Proposal, cache: Option<Tree>, w: World) returns (w': World)
    requires Names(a, b, c) && IsStateChange(p) && p.epoch == 0 && p.count == 1
    requires SystemReachable(k, s0, System(w, cache)) && OnlyLeaderActed(w, a, b, c, FirstLeader(a, p))
    ensures SystemReachable(k, s0, System(w', cache)) && Underway(w', a, b, c, WaitsForAck(a, p), Queued(b, a, p), [], [Ack(p)])
  {
    hide SystemReachable, Takes, Process, FirstLeader, Rookie;
    Shapes(a, b, p);
    LeaderBroadcasts(w, Prop(p));
    var w1 := w.(nodes := w.nodes[a := w.nodes[a].(outbox := [])], down := map i | i in w.followers :: w.down[i] + [Prop(p)]);
    UnderwayStep(k, s0, cache, w, SendNext(a), w1);
    var w2 := ArrivesAtB(k, s0, a, b, c, p, cache, w1);
    w' := AnswersA(k, s0, a, b, c, p, cache, w2);
  }

  lemma ArrivesAtB(k: Codec, s0: Tree, a: string, b: string, c: string, p: Proposal, cache: Option<Tree>, w: World) returns (w': World)
    requires Names(a, b, c) && IsStateChange(p) && p.epoch == 0 && p.count == 1 && SystemReachable(k, s0, System(w, cache))
    requires Underway(w, a, b, c, WaitsForAck(a, p), Rookie(b, a), [] + [Prop(p)], [])
    ensures SystemReachable(k, s0, System(w', cache))
    ensures Underway(w', a, b, c, WaitsForAck(a, p), Queued(b, a, p).(outbox := [To(a, Ack(p))]), [], [])
  {
    hide SystemReachable, Takes, Process, WaitsForAck;
    Shapes(a, b, p);
    QueuesFirst(b, a, p, |w.nodes|);
    hide Rookie;
    var f := Queued(b, a, p).(outbox := [To(a, Ack(p))]);
    assert [] + [Prop(p)] == [Prop(p)] + [];
    FollowerReceives(w, b, Prop(p), [], f);
    w' := w.(nodes := w.nodes[b := f], down := w.down[b := []]);
    UnderwayStep(k, s0, cache, w, DeliverDown(b), w');
  }

  lemma AnswersA(k: Codec, s0: Tree, a: string, b: string, c: string, p: Proposal, cache: Option<Tree>, w: World) returns (w': World)
    requires Names(a, b, c) && SystemReachable(k, s0, System(w, cache))
    requires Underway(w, a, b, c, WaitsForAck(a, p), Queued(b, a, p).(outbox := [To(a, Ack(p))]), [], [])
    ensures SystemReachable(k, s0, System(w', cache)) && Underway(w', a, b, c, WaitsForAck(a, p), Queued(b, a, p), [], [Ack(p)])
  {
    hide SystemReachable, Takes, WaitsForAck, Rookie;
    Shapes(a, b, p);
    hide Queued;
    FollowerSends(w, b, Ack(p));
    assert [] + [Ack(p)] == [Ack(p)];
    w' := w.(nodes := w.nodes[b := w.nodes[b].(outbox := [])], up := w.up[b := w.up[b] + [Ack(p)]]);
    UnderwayStep(k, s0, cache, w, SendNext(b), w');
  }

  lemma Committed(k: Codec, s0: Tree, a: string, b: string, c: string, p: Proposal, cache: Option<Tree>, w: World) returns (w': World)
    requires Names(a, b, c) && IsStateChange(p) && SystemReachable(k, s0, System(w, cache))
    requires Underway(w, a, b, c, WaitsForAck(a, p), Queued(b, a, p), [], [Ack(p)])
    ensures SystemReachable(k, s0, System(w', cache)) && Underway(w', a, b, c, HasQuorum(a, p), Settled(b, a, p), [], [])
  {
    hide SystemReachable, Takes;
    var w1 := ReachesQuorum(k, s0, a, b, c, p, cache, w);
    w' := CommitArrives(k, s0, a, b, c, p, cache, w1);
  }

  lemma ReachesQuorum(k: Codec, s0: Tree, a: string, b: string, c: string, p: Proposal, cache: Option<Tree>, w: World) returns (w': World)
    requires Names(a, b, c) && IsStateChange(p) && SystemReachable(k, s0, System(w, cache))
    requires Underway(w, a, b, c, WaitsForAck(a, p), Queued(b, a, p), [], [Ack(p)])
    ensures SystemReachable(k, s0, System(w', cache)) && Underway(w', a, b, c, HasQuorum(a, p), Queued(b, a, p), [COMMIT_MSG], [])
  {
    hide SystemReachable, Takes, Process;
    ThreeNodes(w, a, b, c);
    Shapes(a, b, p);
    QuorumReached(a, b, p);
    hide Queued, Rookie, WaitsForAck, HasQuorum;
    var na := HasQuorum(a, p).(outbox := [Broadcast(COMMIT_MSG)]);
    LeaderReceives(w, b, Ack(p), na);
    var w1 := w.(nodes := w.nodes[a := na], up := w.up[b := []]);
    UnderwayStep(k, s0, cache, w, DeliverUp(b, Denied([])), w1);
    LeaderBroadcasts(w1, COMMIT_MSG);
    w' := w1.(nodes := w1.nodes[a := w1.nodes[a].(outbox := [])], down := map i | i in w1.followers :: w1.down[i] + [COMMIT_MSG]);
    UnderwayStep(k, s0, cache, w1, SendNext(a), w');
    assert [] + [COMMIT_MSG] == [COMMIT_MSG];
  }

  lemma ThreeNodes(w: World, a: string, b: string, c: string)
    requires Names(a, b, c) && w.nodes.Keys == {a, b, c}
    ensures |w.nodes| == 3
  {
    assert |w.nodes.Keys| == |w.nodes| && |{a, b, c}| == 3;
  }

  lemma CommitArrives(k: Codec, s0: Tree, a: string, b: string, c: string, p: Proposal, cache: Option<Tree>, w: World) returns (w': World)
    requires Names(a, b, c) && SystemReachable(k, s0, System(w, cache))
    requires Underway(w, a, b, c, HasQuorum(a, p), Queued(b, a, p), [COMMIT_MSG], [])
    ensures SystemReachable(k, s0, System(w', cache)) && Underway(w', a, b, c, HasQuorum(a, p), Settled(b, a, p), [], [])
  {
    hide SystemReachable, Takes, Process;
    ThreeNodes(w, a, b, c);
    Shapes(a, b, p);
    CommitSettles(b, a, p);
    hide Queued, Rookie, HasQuorum, Settled;
    assert [COMMIT_MSG] + [] == [COMMIT_MSG];
    FollowerReceives(w, b, COMMIT_MSG, [], Settled(b, a, p));
    w' := w.(nodes := w.nodes[b := Settled(b, a, p)], down := w.down[b := []]);
    UnderwayStep(k, s0, cache, w, DeliverDown(b), w');
  }

  // ---- The follower is elected ----

  lemma SettledMayLead(w: World, a: string, b: string, c: string, p: Proposal, na: Node)
    requires Names(a, b, c) && Underway(w, a, b, c, na, Settled(b, a, p), [], [])
    ensures CanElect(w.nodes, {b, c}, b) && {b, c} <= w.followers && b in w.nodes
  {
    ThreeNodes(w, a, b, c);
    assert |{b, c}| == 2;
  }

  /** The new leader has committed its whole log, and its cache is loaded from its storage. */
  ghost predicate Reloaded(k: Codec, s0: Tree, y: System, b: string, p: Proposal) {
    && y.w.leader == b && b in y.w.nodes && y.w.nodes[b].committed == [p] && y.w.nodes[b].queue == []
    && y.w.nodes[b].saved == [p, Call()] && y.cache == Loaded(StorageOf(k, s0, [p]))
  }

  lemma Elected(k: Codec, s0: Tree, a: string, b: string, c: string, p: Proposal, na: Node, cache: Option<Tree>, w: World)
    returns (y: System)
    requires Names(a, b, c) && p.epoch == 0 && p.count == 1 && SystemReachable(k, s0, System(w, cache))
    requires Underway(w, a, b, c, na, Settled(b, a, p), [], [])
    ensures SystemReachable(k, s0, y) && Reloaded(k, s0, y, b, p)
  {
    hide SystemReachable, Loaded, StorageOf, StartTerm, CanElect;
    SettledMayLead(w, a, b, c, p, na);
    ElectStep(k, s0, w, cache, {b, c}, b);
    y := System(StartTerm(w.nodes, {b, c}, b), Loaded(StorageOf(k, s0, w.nodes[b].committed)));
    StartShape(w.nodes, {b, c}, b);
    assert |{b, c}| == 2;
    SettledStarts(b, a, p);
  }

  lemma SettledStarts(b: string, a: string, p: Proposal)
    requires p.epoch == 0 && p.count == 1
    ensures var n := SendNewLeader(Settled(b, a, p).(coordinator := b), 2);
            n.committed == [p] && n.queue == [] && n.saved == [p, Call()]
  {
    hide Uint32ToBytes;
    assert [p] + [Call()] == [p, Call()];
  }

  /** Any accepted request, committed by a majority, followed by a failover. */
  lemma RequestThenElection(k: Codec, s0: Tree, a: string, b: string, c: string, x: seq<byte>, r: WriteRequest, q: WriteRequest)
    returns (y: System)
    requires Names(a, b, c) && Loaded(s0) == Some(s0) && Accepts(k, s0, x, r, q)
    ensures SystemReachable(k, s0, y) && Reloaded(k, s0, y, b, FirstOf(k.pack(0, q)))
  {
    hide SystemReachable, Accepts, Loaded, OnlyLeaderActed, Underway, Reloaded;
    var p := FirstOf(k.pack(0, q));
    var w0 := Begins(k, s0, a, b, c);
    var w1 := Submits(k, s0, a, b, c, x, w0);
    var w2, cache := FirstProposed(k, s0, a, b, c, x, r, q, w1);
    var w3 := Delivered(k, s0, a, b, c, p, Some(cache), w2);
    var w4 := Committed(k, s0, a, b, c, p, Some(cache), w3);
    y := Elected(k, s0, a, b, c, p, HasQuorum(a, p), Some(cache), w4);
  }

  /** The leader's log is that one request, and its storage what the request leaves. */
  lemma ReloadedStorage(k: Codec, s0: Tree, y: System, b: string, q: WriteRequest)
    requires Sound(k) && Reloaded(k, s0, y, b, FirstOf(k.pack(0, q))) && Znodes.Write(s0, q).0.Ok?
    ensures y.w.leader in y.w.nodes && Applied(k, s0, LeaderLogOf(y.w)) == Znodes.Ok(Znodes.Write(s0, q).1)
    ensures LeaderStorage(k, s0, y.w) == Znodes.Write(s0, q).1 && y.cache == Loaded(Znodes.Write(s0, q).1)
  {
    hide Loaded, Znodes.Write, ZnodeRuns.Replay;
    var p := FirstOf(k.pack(0, q));
    OneInLog(y.w.nodes[b], p);
    DecodedOne(k, p, q);
    hide FirstOf;
    ReplayOfOne(s0, q);
    ZnodeRuns.StorageOfReplay(s0, [q]);
  }

  lemma OneInLog(n: Node, p: Proposal)
    requires n.saved == [p, Call()] && IsStateChange(p)
    ensures Log(n) == [p]
  {
    var one := [p];
    assert n.saved == one + [Call()] && one[..0] == [];
    StateChangesAppend(one, Call());
    assert StateChanges(one) == [p] && [p] + [] == [p];
  }

  lemma DecodedOne(k: Codec, p: Proposal, q: WriteRequest)
    requires Sound(k) && p.content == k.pack(0, q)
    ensures Decoded(k, [p]) == [q]
  {
    assert k.unpack(k.pack(0, q)) == Some(q);
    assert [p][..0] == [];
    assert Decoded(k, []) == [];
  }

  lemma ReplayOfOne(s0: Tree, q: WriteRequest)
    requires Znodes.Write(s0, q).0.Ok?
    ensures ZnodeRuns.Replay(s0, [q]) == Znodes.Ok(Znodes.Write(s0, q).1)
  {
    hide Znodes.Write;
    assert [q][..0] == [];
  }

  // ---- An update without children, then a failover ----

  /** A client's update: it names the version it expects and brings no children. */
  predicate ClientUpdate(k: Codec, s0: Tree, x: seq<byte>, z: Znodes.ZNode) {
    && z.path in s0 && z.version == s0[z.path].version >= 0 && z.children == []
    && k.parse(x) == Some(Znodes.WriteRequest(Znodes.SetData, [z]))
    && 0 < |k.pack(0, Updating(z))| < 0x1000_0000
  }

  /** The request that is proposed for it. */
  function Updating(z: Znodes.ZNode): WriteRequest {
    Znodes.WriteRequest(Znodes.SetData, [z.(version := z.version + 1)])
  }

  lemma UpdateThenElection(k: Codec, s0: Tree, a: string, b: string, c: string, x: seq<byte>, z: Znodes.ZNode) returns (y: System)
    requires Names(a, b, c) && Sound(k) && Tidy(s0) && ClientUpdate(k, s0, x, z)
    ensures SystemReachable(k, s0, y) && y.w.leader == b && b in y.w.nodes && y.w.nodes[b].queue == []
    ensures var s' := Znodes.WriteOp(s0, z.(version := z.version + 1));
            && Applied(k, s0, LeaderLogOf(y.w)) == Znodes.Ok(s') && LeaderStorage(k, s0, y.w) == s' && y.cache == Loaded(s')
  {
    hide *;
    TidyLoads(s0);
    var q := Updating(z);
    var r := AcceptsClientUpdate(k, s0, x, z);
    y := RequestThenElection(k, s0, a, b, c, x, r, q);
    UpdateWritten(s0, z);
    ReloadedStorage(k, s0, y, b, q);
    ReloadedLeads(k, s0, y, b, FirstOf(k.pack(0, q)));
  }

  lemma AcceptsClientUpdate(k: Codec, s0: Tree, x: seq<byte>, z: Znodes.ZNode) returns (r: WriteRequest)
    requires ClientUpdate(k, s0, x, z)
    ensures Accepts(k, s0, x, r, Updating(z))
  {
    r := Znodes.WriteRequest(Znodes.SetData, [z]);
    UpdateAccepted(s0, z);
    hide Znodes.Check;
  }

  lemma UpdateWritten(s0: Tree, z: Znodes.ZNode)
    ensures Znodes.Write(s0, Updating(z)).0.Ok?
    ensures Znodes.Write(s0, Updating(z)).1 == Znodes.WriteOp(s0, z.(version := z.version + 1))
  {
  }

  lemma ReloadedLeads(k: Codec, s0: Tree, y: System, b: string, p: Proposal)
    requires Reloaded(k, s0, y, b, p)
    ensures y.w.leader == b && b in y.w.nodes && y.w.nodes[b].queue == []
  {
    hide Loaded, StorageOf;
  }

  /** An update without children cuts off what is below its znode: after a failover the new leader has
      committed everything, its storage still has the child and so does every replica that applies
      the log, but its cache does not. */
  lemma FailoverForgets(k: Codec, s0: Tree, a: string, b: string, c: string, x: seq<byte>, z: Znodes.ZNode, name: string)
    returns (y: System)
    requires Names(a, b, c) && Sound(k) && Tidy(s0) && ClientUpdate(k, s0, x, z)
    requires z.path + [name] in s0 && z.path + [name] != [Znodes.SESSION_DIR]
    ensures SystemReachable(k, s0, y) && y.w.leader in y.w.nodes && y.w.nodes[y.w.leader].queue == []
    ensures Applied(k, s0, LeaderLogOf(y.w)).Ok? && z.path + [name] in Applied(k, s0, LeaderLogOf(y.w)).value
    ensures y.cache.Some? && z.path in y.cache.value && z.path + [name] !in y.cache.value
    ensures !Faithful(k, s0, false, y)
  {
    assert z.path in s0 && z.children == [];
    hide SystemReachable, Loaded, Tidy, Sound, ClientUpdate, Applied, StorageOf;
    y := UpdateThenElection(k, s0, a, b, c, x, z);
    ZnodeStorage.ForgetsChildren(s0, z.(version := z.version + 1), name);
    NotFaithful(k, s0, y, z.path + [name]);
  }

  lemma NotFaithful(k: Codec, s0: Tree, y: System, q: Znodes.Path)
    requires y.w.leader in y.w.nodes && y.cache.Some? && q !in y.cache.value
    requires Applied(k, s0, LeaderLogOf(y.w)).Ok? && q in Applied(k, s0, LeaderLogOf(y.w)).value
    ensures !Faithful(k, s0, false, y)
  {
    hide Applied, Applies, Reachable, WellFormed, Decoded, Log;
  }

  /** On a topic the new leader accepts the next message under number 1, a path that its storage
      already has. */
  lemma FailoverRestartsTopic(k: Codec, s0: Tree, a: string, b: string, c: string, x: seq<byte>, z: Znodes.ZNode, n: nat,
                              data: Znodes.Data) returns (y: System)
    requires Names(a, b, c) && Sound(k) && Tidy(s0) && ClientUpdate(k, s0, x, z)
    requires PubSub.Published(s0, z.path, n) && 1 <= n < SeqNames.MAX_INT && z.ephemeral == ""
    requires z.path != [] && z.path != [Znodes.SESSION_DIR]
    ensures SystemReachable(k, s0, y) && y.w.leader in y.w.nodes && y.w.nodes[y.w.leader].queue == [] && y.cache.Some?
    ensures var s := LeaderStorage(k, s0, y.w);
            var r := Znodes.Check(y.cache.value, s, PubSub.Publish(z.path, data)).0;
            && PubSub.MessagePath(z.path, 1) in s
            && r.Ok? && r.value.znodes != [] && r.value.znodes[0].path == PubSub.MessagePath(z.path, 1)
  {
    assert z.children == [];
    hide SystemReachable, Loaded, Tidy, Sound, ClientUpdate, Applied, StorageOf, Znodes.Check, PubSub.Published;
    y := UpdateThenElection(k, s0, a, b, c, x, z);
    StillPublished(s0, z, n);
    Topics.TopicForgets(s0, z.(version := z.version + 1), n, data);
  }

  lemma StillPublished(s0: Tree, z: Znodes.ZNode, n: nat)
    requires PubSub.Published(s0, z.path, n)
    ensures PubSub.Published(s0, z.(version := z.version + 1).path, n)
  {
    hide PubSub.Published;
  }
}
