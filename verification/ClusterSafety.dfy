/** Safety of whole runs: every reachable state of the cluster, through any number of leader terms,
    satisfies the invariant, and what a quorum has committed stays in every later leader's log. */
module ClusterSafety {
  import opened Zxid
  import opened Messages
  import opened Collections
  import opened Channel
  import opened SyncReply
  import opened ProposalLog
  import opened ZabNode
  import opened FollowerSteps
  import opened LeaderSteps
  import opened TermSteps
  import opened Cluster

  /** A follower with what is on its way: on the links, and still in a sending queue. */
  function PeerOf(w: World, i: string): Peer
    requires w.leader in w.nodes && i in w.nodes && i in w.down && i in w.up
  {
    Peer(w.nodes[i], w.down[i] + Route(w.nodes[w.leader].outbox, i), w.up[i] + Route(w.nodes[i].outbox, w.leader))
  }

  function PeersOf(w: World): Peers
    requires w.leader in w.nodes
  {
    map i | i in w.down && i in w.up && i in w.nodes :: PeerOf(w, i)
  }

  function TermView(w: World): View
    requires w.leader in w.nodes
  {
    ViewOf(w.nodes[w.leader], w.lag)
  }

  ghost predicate Inv(w: World) {
    && WellFormed(w)
    && (forall x :: x in w.nodes ==> w.nodes[x].name == x)
    && |w.nodes| >= 2 && |w.followers| >= |w.nodes| / 2
    && TermInv(TermView(w), w.nodes[w.leader], w.lag, PeersOf(w), |w.nodes|)
  }

  /** What a step within a term keeps and extends. */
  ghost predicate Continues(w: World, w': World) {
    && WellFormed(w) && WellFormed(w')
    && w'.leader == w.leader && w'.followers == w.followers && w'.lag == w.lag && w'.nodes.Keys == w.nodes.Keys
    && Advances(TermView(w), TermView(w'))
    && (forall x :: x in w.nodes ==> Log(w.nodes[x]) <= Log(w'.nodes[x]))
  }

  // ---- Steps of the cluster as steps of the term ----

  lemma PeerKeys(w: World)
    requires WellFormed(w)
    ensures PeersOf(w).Keys == w.followers
  {
  }

  /** Only follower `i` and its links change. */
  lemma OnePeerChanges(w: World, i: string, f: Node, down: seq<ZabMsg>, up: seq<ZabMsg>, w': World)
    requires WellFormed(w) && i in w.followers
    requires w' == w.(nodes := w.nodes[i := f], down := w.down[i := down], up := w.up[i := up])
    ensures WellFormed(w') && PeersOf(w') == PeersOf(w)[i := PeerOf(w', i)]
  {
    SamePeers(w, i, f, down, up, w');
    hide PeerOf;
    var peers, peers' := PeersOf(w), PeersOf(w');
    assert peers'.Keys == peers[i := PeerOf(w', i)].Keys;
    forall j | j in peers' ensures peers'[j] == peers[i := PeerOf(w', i)][j] {
    }
  }

  lemma SamePeers(w: World, i: string, f: Node, down: seq<ZabMsg>, up: seq<ZabMsg>, w': World)
    requires WellFormed(w) && i in w.followers
    requires w' == w.(nodes := w.nodes[i := f], down := w.down[i := down], up := w.up[i := up])
    ensures WellFormed(w')
    ensures forall j :: j in w.followers && j != i ==> PeerOf(w', j) == PeerOf(w, j)
  {
    hide Route;
  }

  /** One node changes in a way that continues the term. */
  lemma OneNodeContinues(w: World, w': World, x: string, f: Node)
    requires WellFormed(w) && WellFormed(w') && x in w.nodes && w'.nodes == w.nodes[x := f]
    requires w'.leader == w.leader && w'.followers == w.followers && w'.lag == w.lag
    requires Advances(TermView(w), TermView(w')) && Log(w.nodes[x]) <= Log(f)
    ensures Continues(w, w')
  {
    hide Log, ViewOf, WellFormed, Advances;
    assert w'.nodes.Keys == w.nodes.Keys;
  }

  /** The nodes keep their names, and the term its invariant. */
  lemma OneNodeInv(w: World, w': World, x: string, f: Node)
    requires Inv(w) && WellFormed(w') && x in w.nodes && w'.nodes == w.nodes[x := f] && f.name == x
    requires w'.leader == w.leader && w'.followers == w.followers && w'.lag == w.lag
    requires TermInv(TermView(w'), w'.nodes[w'.leader], w'.lag, PeersOf(w'), |w.nodes|)
    ensures Inv(w')
  {
    hide TermInv, PeersOf, ViewOf, WellFormed;
    assert w'.nodes.Keys == w.nodes.Keys;
    assert |w'.nodes.Keys| == |w.nodes.Keys|;
  }

  lemma DeliveredDownEffect(w: World, i: string)
    requires WellFormed(w) && i in w.followers && w.down[i] != [] && TermView(w).leader == w.leader
    ensures var w', p, q := DeliveredDown(w, i), PeersOf(w)[i], DeliveredTo(TermView(w), PeersOf(w)[i], w.up[i], |w.nodes|);
            && p.down != [] && p.up == w.up[i] + Route(p.node.outbox, w.leader) && p.node == w.nodes[i]
            && w' == w.(nodes := w.nodes[i := q.node], down := w.down[i := w.down[i][1..]], up := w.up[i := w.up[i]])
            && PeerOf(w', i) == q
  {
    hide Process, Route, ViewOf;
    var p := PeersOf(w)[i];
    assert p.down[0] == w.down[i][0];
    assert p.down[1..] == w.down[i][1..] + Route(w.nodes[w.leader].outbox, i);
    assert w.up[i := w.up[i]] == w.up;
  }

  lemma DeliverDownSafe(w: World, i: string)
    requires Inv(w) && i in w.followers && w.down[i] != []
    ensures Inv(DeliveredDown(w, i)) && Continues(w, DeliveredDown(w, i))
  {
    hide TermInv, Route, Log, PeersOf, DeliveredTo, DeliveredDown, ViewOf, PeerOf, ViewOk, InStep, Continues;
    var v, ld, peers, w' := TermView(w), w.nodes[w.leader], PeersOf(w), DeliveredDown(w, i);
    PeerKeys(w);
    TermFacts(v, ld, w.lag, peers, |w.nodes|);
    DeliveredDownEffect(w, i);
    DeliverDownStep(v, ld, w.lag, peers, |w.nodes|, i, w.up[i]);
    OnePeerChanges(w, i, w'.nodes[i], w.down[i][1..], w.up[i], w');
    assert w'.nodes[w.leader] == ld;
    OneNodeContinues(w, w', i, w'.nodes[i]);
    OneNodeInv(w, w', i, w'.nodes[i]);
  }

  // ---- Messages handled by the leader ----

  /** Only the leader changes, sending `out`. */
  lemma LeaderChanges(w: World, ld: Node, out: seq<Outgoing>, w': World)
    requires WellFormed(w) && w' == w.(nodes := w.nodes[w.leader := ld])
    requires ld.outbox == w.nodes[w.leader].outbox + out
    ensures WellFormed(w') && PeersOf(w') == SentTo(PeersOf(w), out)
  {
    hide Route;
    forall j | j in w.followers ensures PeerOf(w', j) == PeerOf(w, j).(down := PeerOf(w, j).down + Route(out, j)) {
      RouteAppend(w.nodes[w.leader].outbox, out, j);
      Regroup(w.down[j], Route(w.nodes[w.leader].outbox, j), Route(out, j));
    }
    hide PeerOf;
    assert PeersOf(w').Keys == PeersOf(w).Keys;
  }

  lemma LogOfView(w: World, w': World)
    requires WellFormed(w) && WellFormed(w') && w'.leader == w.leader
    requires Advances(TermView(w), TermView(w'))
    ensures Log(w.nodes[w.leader]) <= Log(w'.nodes[w'.leader])
  {
    hide Log;
  }

  /** The leader handles a message that is already off its link in `popped`. */
  lemma LeaderSafe(w: World, popped: World, ld: Node, out: seq<Outgoing>, w': World)
    requires Inv(w) && WellFormed(popped) && popped == w.(up := popped.up)
    requires w' == popped.(nodes := w.nodes[w.leader := ld])
    requires ld.outbox == w.nodes[w.leader].outbox + out && ld.name == w.leader
    requires Advances(TermView(w), ViewOf(ld, w.lag))
    requires TermInv(ViewOf(ld, w.lag), ld, w.lag, SentTo(PeersOf(popped), out), |w.nodes|)
    ensures Inv(w') && Continues(w, w')
  {
    hide TermInv, Route, Log, PeersOf, ViewOf, SentTo, Continues, Advances;
    LeaderChanges(popped, ld, out, w');
    assert w'.nodes[w'.leader] == ld;
    OneNodeInv(w, w', w.leader, ld);
    LogOfView(w, w');
    OneNodeContinues(w, w', w.leader, ld);
  }

  lemma PopPeer(w: World, i: string, popped: World)
    requires WellFormed(w) && i in w.followers && w.up[i] != [] && popped == w.(up := w.up[i := w.up[i][1..]])
    ensures var p := PeersOf(w)[i]; var rest := w.up[i][1..] + Route(p.node.outbox, w.leader);
            && WellFormed(popped) && p.up == [w.up[i][0]] + rest
            && PeersOf(popped) == PeersOf(w)[i := p.(up := rest)]
  {
    hide Route;
    assert w.nodes[i := w.nodes[i]] == w.nodes && w.down[i := w.down[i]] == w.down;
    OnePeerChanges(w, i, w.nodes[i], w.down[i], w.up[i][1..], popped);
    assert w.up[i] == [w.up[i][0]] + w.up[i][1..];
    Regroup([w.up[i][0]], w.up[i][1..], Route(w.nodes[i].outbox, w.leader));
  }

  lemma DeliverUpSafe(w: World, i: string, verdict: Verdict)
    requires Inv(w) && i in w.followers && w.up[i] != [] && MayPropose(w.nodes[w.leader], w.up[i][0], verdict)
    ensures Inv(DeliveredUp(w, i, verdict)) && Continues(w, DeliveredUp(w, i, verdict))
  {
    hide TermInv, Route, Log, PeersOf, ViewOf, SentTo, Continues, Advances, Process, MayPropose;
    var popped := w.(up := w.up[i := w.up[i][1..]]);
    var v, ld, peers := TermView(w), w.nodes[w.leader], PeersOf(w);
    PeerKeys(w);
    PopPeer(w, i, popped);
    var rest := w.up[i][1..] + Route(peers[i].node.outbox, w.leader);
    var out := ArrivalKeeps(v, ld, w.lag, peers, |w.nodes|, i, w.up[i][0], rest, verdict);
    LeaderSafe(w, popped, Process(ld, NetMsg(i, w.up[i][0]), verdict, |w.nodes|), out, DeliveredUp(w, i, verdict));
  }

  /** Followers never address themselves. */
  lemma OnlyLeaderHasInbox(w: World, i: string)
    requires Inv(w) && i in w.followers
    ensures w.nodes[i].inbox == []
  {
    PeerKeys(w);
    assert InStep(TermView(w), PeersOf(w)[i], PeersOf(w).Keys);
  }

  /** Only the leader has messages in its own queue. */
  lemma ProcessOwnSafe(w: World, i: string, verdict: Verdict)
    requires WellFormed(w) && i in w.Ring() && w.nodes[i].inbox != []
    requires MayPropose(w.nodes[i], w.nodes[i].inbox[0].msg, verdict)
    requires Inv(w)
    ensures Inv(ProcessedOwn(w, i, verdict)) && Continues(w, ProcessedOwn(w, i, verdict))
  {
    hide Inv, WellFormed, MayPropose, ProcessedOwn, Continues;
    if i in w.followers { OnlyLeaderHasInbox(w, i); }
    LeaderProcesses(w, verdict);
  }

  lemma LeaderProcesses(w: World, verdict: Verdict)
    requires WellFormed(w) && w.nodes[w.leader].inbox != []
    requires MayPropose(w.nodes[w.leader], w.nodes[w.leader].inbox[0].msg, verdict)
    requires Inv(w)
    ensures Inv(ProcessedOwn(w, w.leader, verdict)) && Continues(w, ProcessedOwn(w, w.leader, verdict))
  {
    hide TermInv, Route, Log, PeersOf, ViewOf, SentTo, Continues, Advances, Process;
    var v, ld, peers := TermView(w), w.nodes[w.leader], PeersOf(w);
    var net, ld1 := ld.inbox[0], ld.(inbox := ld.inbox[1..]);
    InboxHoldsWrites(v, ld, w.lag, peers, |w.nodes|);
    assert AllWrites(ld1.inbox);
    QueuesKeep(v, ld, w.lag, peers, |w.nodes|, ld1);
    var out := WriteKeeps(v, ld1, w.lag, peers, |w.nodes|, net.remote, net.msg.req, verdict);
    LeaderSafe(w, w, Process(ld1, net, verdict, |w.nodes|), out, ProcessedOwn(w, w.leader, verdict));
  }

  // ---- Submitting and sending ----

  /** A follower's sending queue changes without changing what reaches the leader from it, apart
      from writes. */
  lemma FollowerQueueSafe(w: World, i: string, f: Node, up: seq<ZabMsg>, w': World)
    requires Inv(w) && i in w.followers
    requires f == w.nodes[i].(outbox := f.outbox) && w' == w.(nodes := w.nodes[i := f], up := w.up[i := up])
    requires NoneFor(f.outbox, w.followers)
    requires var all, all' := w.up[i] + Route(w.nodes[i].outbox, w.leader), up + Route(f.outbox, w.leader);
             FromFollower(all') && Acks(all') == Acks(all) && Syncs(all') == Syncs(all)
    ensures Inv(w') && Continues(w, w')
  {
    hide TermInv, Route, Log, PeersOf, ViewOf, NoneFor, FromFollower, Acks, Syncs, Continues;
    PeerKeys(w);
    assert w.down[i := w.down[i]] == w.down;
    OnePeerChanges(w, i, f, w.down[i], up, w');
    PeersAre(w, i);
    PeerQueues(TermView(w), w.nodes[w.leader], w.lag, PeersOf(w), |w.nodes|, i, PeerOf(w', i));
    assert w'.nodes[w.leader] == w.nodes[w.leader];
    OneNodeInv(w, w', i, f);
    OneNodeContinues(w, w', i, f) by { assert Log(f) == Log(w.nodes[i]) by { SameLog(w.nodes[i], f); } }
  }

  lemma PeersAre(w: World, i: string)
    requires WellFormed(w) && i in w.followers
    ensures i in PeersOf(w) && PeersOf(w)[i] == PeerOf(w, i)
  {
  }

  lemma FollowerFacts(w: World, i: string)
    requires Inv(w) && i in w.followers
    ensures w.nodes[i].coordinator == w.leader != i && NoneFor(w.nodes[i].outbox, w.followers)
    ensures FromFollower(w.up[i] + Route(w.nodes[i].outbox, w.leader))
    ensures TermView(w).leader == w.leader
  {
    hide Route, NoneFor, FromFollower;
    PeerKeys(w);
    assert InStep(TermView(w), PeersOf(w)[i], PeersOf(w).Keys);
  }

  /** A write joins the end of what is on its way to the leader. */
  lemma WriteOnLink(out: seq<Outgoing>, link: seq<ZabMsg>, leader: string, m: ZabMsg, names: set<string>)
    requires NoneFor(out, names) && leader !in names && FromFollower(link + Route(out, leader)) && IsWrite(m)
    ensures var all, all' := link + Route(out, leader), link + Route(out + [To(leader, m)], leader);
            FromFollower(all') && Acks(all') == Acks(all) && Syncs(all') == Syncs(all)
    ensures NoneFor(out + [To(leader, m)], names)
  {
    RouteOne(To(leader, m), leader);
    One(m);
    hide Route, Acks, Syncs;
    var all := link + Route(out, leader);
    RouteAppend(out, [To(leader, m)], leader);
    Regroup(link, Route(out, leader), [m]);
    AppendProjections(all, [m]);
    OneMore(out, To(leader, m), names, all, m);
    assert Acks(all) + [] == Acks(all) && Syncs(all) + [] == Syncs(all);
  }

  lemma FollowerSubmits(w: World, i: string, num: int, content: seq<byte>)
    requires Inv(w) && i in w.followers
    ensures Inv(Submitted(w, i, num, content)) && Continues(w, Submitted(w, i, num, content))
  {
    InvWellFormed(w);
    FollowerFacts(w, i);
    NamedNodes(w, i);
    var w', m := Submitted(w, i, num, content), Req(Request(Write, num, content));
    SubmittedEffect(w, i, num, content);
    assert w.leader !in w.followers && IsWrite(m) by { hide Inv; }
    hide *;
    WriteOnLink(w.nodes[i].outbox, w.up[i], w.leader, m, w.followers);
    FollowerQueueSafe(w, i, w'.nodes[i], w.up[i], w');
  }

  /** A follower's write joins its sending queue, and nothing else changes. */
  lemma SubmittedEffect(w: World, i: string, num: int, content: seq<byte>)
    requires WellFormed(w) && i in w.followers && w.nodes[i].name == i && w.nodes[i].coordinator == w.leader
    ensures var w', m := Submitted(w, i, num, content), Req(Request(Write, num, content));
            && i in w'.nodes && w'.nodes[i] == w.nodes[i].(outbox := w.nodes[i].outbox + [To(w.leader, m)])
            && w' == w.(nodes := w.nodes[i := w'.nodes[i]], up := w.up[i := w.up[i]])
  {
    assert w.up[i := w.up[i]] == w.up;
  }

  lemma InvWellFormed(w: World)
    requires Inv(w)
    ensures WellFormed(w)
  {
  }

  lemma LeaderSubmits(w: World, num: int, content: seq<byte>)
    requires Inv(w)
    ensures Inv(Submitted(w, w.leader, num, content)) && Continues(w, Submitted(w, w.leader, num, content))
  {
    LeaderCoordinates(w);
    hide TermInv, Route, Log, PeersOf, ViewOf, SentTo, Continues;
    var w', m := Submitted(w, w.leader, num, content), Req(Request(Write, num, content));
    var ld, ld' := w.nodes[w.leader], w'.nodes[w.leader];
    InboxHoldsWrites(TermView(w), ld, w.lag, PeersOf(w), |w.nodes|);
    assert ld' == ld.(inbox := ld.inbox + [NetMsg(w.leader, m)]);
    QueuesKeep(TermView(w), ld, w.lag, PeersOf(w), |w.nodes|, ld');
    SentNothing(PeersOf(w));
    assert ld.outbox + [] == ld.outbox;
    LeaderSafe(w, w, ld', [], w');
  }

  lemma NamedNodes(w: World, i: string)
    requires Inv(w) && i in w.nodes
    ensures w.nodes[i].name == i
  {
  }

  lemma LeaderCoordinates(w: World)
    requires Inv(w)
    ensures w.nodes[w.leader].coordinator == w.leader
  {
  }

  lemma OneMore(out: seq<Outgoing>, o: Outgoing, names: set<string>, link: seq<ZabMsg>, m: ZabMsg)
    requires NoneFor(out, names) && o.To? && o.target !in names && FromFollower(link) && (m.Req? || m.Ack?)
    ensures NoneFor(out + [o], names) && FromFollower(link + [m])
  {
  }

  /** The head of a sending queue moves to the end of the link. */
  lemma HeadMoves(out: seq<Outgoing>, link: seq<ZabMsg>, target: string)
    requires out != []
    ensures link + Route([out[0]], target) + Route(out[1..], target) == link + Route(out, target)
  {
    assert [out[0]] + out[1..] == out;
    RouteSplit(out[0], out[1..], target);
    hide Route;
    Regroup(link, Route([out[0]], target), Route(out[1..], target));
  }

  /** The message sender does not change what is on its way to anyone. */
  lemma FollowerSendsNext(w: World, i: string)
    requires Inv(w) && i in w.followers && w.nodes[i].outbox != []
    ensures Inv(Sent(w, i)) && Continues(w, Sent(w, i))
  {
    FollowerFacts(w, i);
    InvWellFormed(w);
    hide Inv, Route, FromFollower, Acks, Syncs, Log, ViewOf, Continues, NoneFor;
    var w', out := Sent(w, i), w.nodes[i].outbox;
    NoneForTail(out, w.followers);
    HeadMoves(out, w.up[i], w.leader);
    FollowerQueueSafe(w, i, w'.nodes[i], w.up[i] + Route([out[0]], w.leader), w');
  }

  lemma NoneForTail(out: seq<Outgoing>, names: set<string>)
    requires out != [] && NoneFor(out, names)
    ensures NoneFor(out[1..], names)
  {
  }

  lemma RouteSplit(o: Outgoing, rest: seq<Outgoing>, target: string)
    ensures Route([o] + rest, target) == Route([o], target) + Route(rest, target)
  {
    RouteAppend([o], rest, target);
  }

  lemma LeaderSendsNext(w: World)
    requires Inv(w) && w.nodes[w.leader].outbox != []
    ensures Inv(Sent(w, w.leader)) && Continues(w, Sent(w, w.leader))
  {
    hide TermInv, Route, Log, ViewOf, Continues, PeersOf;
    var w', ld := Sent(w, w.leader), w.nodes[w.leader];
    var ld' := ld.(outbox := ld.outbox[1..]);
    SentPeers(w);
    InboxHoldsWrites(TermView(w), ld, w.lag, PeersOf(w), |w.nodes|);
    QueuesKeep(TermView(w), ld, w.lag, PeersOf(w), |w.nodes|, ld');
    OneNodeInv(w, w', w.leader, ld');
    SameLog(ld, ld');
    OneNodeContinues(w, w', w.leader, ld');
  }

  lemma SentPeers(w: World)
    requires WellFormed(w) && w.nodes[w.leader].outbox != []
    ensures WellFormed(Sent(w, w.leader)) && PeersOf(Sent(w, w.leader)) == PeersOf(w)
  {
    hide Route;
    var w' := Sent(w, w.leader);
    forall j | j in w.followers ensures PeerOf(w', j) == PeerOf(w, j) {
      HeadMoves(w.nodes[w.leader].outbox, w.down[j], j);
    }
    hide PeerOf;
    assert PeersOf(w').Keys == PeersOf(w).Keys;
  }
}
