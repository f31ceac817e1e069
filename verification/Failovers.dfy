/** Runs that show what the conditions of the main results are for: a committed proposal that no
    later leader has, and a follower that is still in sync mode when it looks up to date. */
module Failovers {
  import opened Zxid
  import opened Collections
  import opened Messages
  import opened Channel
  import opened SyncReply
  import opened ProposalLog
  import opened AckCounting
  import opened ZabNode
  import opened FollowerSteps
  import opened LeaderSteps
  import opened TermSteps
  import opened Cluster
  import opened ClusterSafety
  import opened ClusterRuns
  import opened ClusterTheorems
  import opened Durability
  import opened Handover

  // ---- Single steps, as updates of the state ----

  /** The step `a` leads from `w` to `w'`. */
  ghost predicate Takes(w: World, a: Action, w': World) {
    WellFormed(w) && Enabled(w, a) && Apply(w, a) == w'
  }

  lemma TakesReaches(w: World, a: Action, w': World)
    requires Reachable(w) && Takes(w, a, w')
    ensures Reachable(w') && WellFormed(w')
  {
    hide Reachable, WellFormed, Enabled, Apply;
    ReachableStep(w, a);
  }

  lemma ThreeSteps(w: World, a1: Action, w1: World, a2: Action, w2: World, a3: Action, w3: World)
    requires Takes(w, a1, w1) && Takes(w1, a2, w2) && Takes(w2, a3, w3)
    ensures Reaches(w, w3)
  {
    hide Reaches, WellFormed, Enabled, Apply;
    OneStepReaches(w, a1);
    ReachesStep(w, w1, a2);
    ReachesStep(w, w2, a3);
  }

  /** The leader sends itself a write. */
  lemma LeaderSubmitsOwn(w: World, num: int, content: seq<byte>)
    requires WellFormed(w)
    requires var ld := w.nodes[w.leader]; ld.name == w.leader == ld.coordinator && ld.inbox == [] && !ld.stopped
    ensures var ld, m := w.nodes[w.leader], Req(Request(Write, num, content));
            Takes(w, Submit(w.leader, num, content), w.(nodes := w.nodes[w.leader := ld.(inbox := [NetMsg(w.leader, m)])]))
  {
    var m := NetMsg(w.leader, Req(Request(Write, num, content)));
    assert [] + [m] == [m];
  }

  /** The leader's node after its own write became a proposal. */
  function Proposed(ld: Node, content: seq<byte>): Node {
    var p := NextProposal(ld, content);
    ld.(count := p.count, acks := Stored(ld.acks, p.Id()), queue := ld.queue + [p], saved := ld.saved + [p],
        outbox := ld.outbox + [Broadcast(Prop(p))], inbox := [])
  }

  lemma LeaderProposes(w: World, req: Request, content: seq<byte>)
    requires WellFormed(w) && req.kind == Write && 0 < |content| < 0x1000_0000
    requires var ld := w.nodes[w.leader];
             ld.inbox == [NetMsg(w.leader, Req(req))] && ld.name == w.leader && ld.processing && !ld.stopped && ld.count < 0xFFFF
    ensures Takes(w, ProcessOwn(w.leader, Accepted(content)),
                  w.(nodes := w.nodes[w.leader := Proposed(w.nodes[w.leader], content)]))
  {
    var ld := w.nodes[w.leader];
    assert ld.inbox[1..] == [];
  }

  /** The leader's only outgoing message, a broadcast, goes to every link. */
  lemma LeaderBroadcasts(w: World, m: ZabMsg)
    requires WellFormed(w) && w.nodes[w.leader].outbox == [Broadcast(m)]
    ensures Takes(w, SendNext(w.leader),
                  w.(nodes := w.nodes[w.leader := w.nodes[w.leader].(outbox := [])],
                     down := map i | i in w.followers :: w.down[i] + [m]))
  {
    var o := Broadcast(m);
    assert forall i :: i in w.followers ==> Route([o], i) == [m] by {
      forall i | i in w.followers ensures Route([o], i) == [m] { RouteOne(o, i); }
    }
    hide Route;
    assert [o][1..] == [];
  }

  /** What a message to `i` adds to the leader's links. */
  function LinksAfter(w: World, i: string, m: ZabMsg): map<string, seq<ZabMsg>> {
    if i in w.followers && i in w.down then w.down[i := w.down[i] + [m]] else w.down
  }

  lemma LinksAfterSending(w: World, i: string, m: ZabMsg)
    requires WellFormed(w)
    ensures (map j | j in w.followers :: w.down[j] + Route([To(i, m)], j)) == LinksAfter(w, i, m)
  {
    forall j | j in w.followers ensures w.down[j] + Route([To(i, m)], j) == if j == i then w.down[j] + [m] else w.down[j] {
      RouteOne(To(i, m), j);
    }
    hide Route;
  }

  /** A message to one node leaves the leader's sending queue. */
  lemma LeaderSendsTo(w: World, i: string, m: ZabMsg)
    requires WellFormed(w) && w.nodes[w.leader].outbox != [] && w.nodes[w.leader].outbox[0] == To(i, m)
    ensures Takes(w, SendNext(w.leader),
                  w.(nodes := w.nodes[w.leader := w.nodes[w.leader].(outbox := w.nodes[w.leader].outbox[1..])],
                     down := LinksAfter(w, i, m)))
  {
    LinksAfterSending(w, i, m);
    hide Route, LinksAfter;
  }

  /** A follower's only outgoing message, to its leader, goes to its link. */
  lemma FollowerSends(w: World, i: string, m: ZabMsg)
    requires WellFormed(w) && i in w.followers && w.nodes[i].outbox == [To(w.leader, m)]
    ensures Takes(w, SendNext(i), w.(nodes := w.nodes[i := w.nodes[i].(outbox := [])], up := w.up[i := w.up[i] + [m]]))
  {
    var o := To(w.leader, m);
    RouteOne(o, w.leader);
    hide Route;
    assert [o][1..] == [];
  }

  /** A follower handles the next message from its leader. */
  lemma FollowerReceives(w: World, i: string, m: ZabMsg, rest: seq<ZabMsg>, f: Node)
    requires WellFormed(w) && i in w.followers && !w.nodes[i].stopped && w.down[i] == [m] + rest
    requires f == Process(w.nodes[i], NetMsg(w.leader, m), Denied([]), |w.nodes|)
    ensures Takes(w, DeliverDown(i), w.(nodes := w.nodes[i := f], down := w.down[i := rest]))
  {
    hide Process;
    assert w.down[i][0] == m && w.down[i][1..] == rest;
  }

  /** The leader handles the next message from a follower, when it is not a write. */
  lemma LeaderReceives(w: World, i: string, m: ZabMsg, ld: Node)
    requires WellFormed(w) && i in w.followers && !w.nodes[w.leader].stopped && w.up[i] == [m] && !IsWrite(m)
    requires ld == Process(w.nodes[w.leader], NetMsg(i, m), Denied([]), |w.nodes|)
    ensures Takes(w, DeliverUp(i, Denied([])), w.(nodes := w.nodes[w.leader := ld], up := w.up[i := []]))
  {
    hide Process;
    assert w.up[i][0] == m && w.up[i][1..] == [];
  }

  // ---- A leader crashes with two proposals that reached one follower ----

  /** An open leader with nothing left to handle or to send. */
  predicate QuietLeader(w: World) {
    WellFormed(w) && QuietNode(w.nodes[w.leader], w.leader)
  }

  predicate QuietNode(ld: Node, name: string) {
    && ld.name == name == ld.coordinator && ld.processing && !ld.stopped && ld.count < 0xFFFF
    && ld.inbox == [] && ld.outbox == []
  }

  /** A proposal of the leader is on every link. */
  lemma Broadcasts(w: World, content: seq<byte>) returns (w': World)
    requires Reachable(w) && QuietLeader(w) && 0 < |content| < 0x1000_0000
    ensures Reachable(w') && WellFormed(w') && Reaches(w, w')
    ensures var ld, p := w.nodes[w.leader], NextProposal(w.nodes[w.leader], content);
            && w' == w.(nodes := w.nodes[w.leader := Proposed(ld, content).(outbox := [])],
                        down := map i | i in w.followers :: w.down[i] + [Prop(p)])
  {
    hide Reachable, Reaches, Takes;
    var ld, p := w.nodes[w.leader], NextProposal(w.nodes[w.leader], content);
    LeaderSubmitsOwn(w, 0, []);
    var w1 := w.(nodes := w.nodes[w.leader := ld.(inbox := [NetMsg(w.leader, Req(Request(Write, 0, [])))])]);
    TakesReaches(w, Submit(w.leader, 0, []), w1);
    LeaderProposes(w1, Request(Write, 0, []), content);
    var w2 := w1.(nodes := w1.nodes[w.leader := Proposed(w1.nodes[w.leader], content)]);
    TakesReaches(w1, ProcessOwn(w.leader, Accepted(content)), w2);
    assert Proposed(w1.nodes[w.leader], content) == Proposed(ld, content);
    LeaderBroadcasts(w2, Prop(p));
    w' := w2.(nodes := w2.nodes[w.leader := w2.nodes[w.leader].(outbox := [])],
              down := map i | i in w.followers :: w2.down[i] + [Prop(p)]);
    TakesReaches(w2, SendNext(w.leader), w');
    ThreeSteps(w, Submit(w.leader, 0, []), w1, ProcessOwn(w.leader, Accepted(content)), w2, SendNext(w.leader), w');
    assert w'.nodes == w.nodes[w.leader := Proposed(ld, content).(outbox := [])];
  }

  predicate Distinct3(all: set<string>, a: string, b: string, c: string) {
    a in all && b in all && c in all && a != b && a != c && b != c
  }

  function FirstOf(x1: seq<byte>): Proposal {
    Proposal(STATE_CHANGE, 0, 1, x1)
  }

  function SecondOf(x2: seq<byte>): Proposal {
    Proposal(STATE_CHANGE, 0, 2, x2)
  }

  /** A node that has just started and knows its coordinator. */
  function Rookie(x: string, leader: string): Node {
    Fresh(x).(coordinator := leader)
  }

  /** The first term of a cluster that has just started. */
  lemma FirstTerm(all: set<string>, a: string) returns (w: World)
    requires a in all && |all| >= 2
    ensures Init(w) && Reachable(w) && WellFormed(w) && w.nodes.Keys == all && w.leader == a && w.followers == all - {a}
    ensures w.nodes[a] == Rookie(a, a).(processing := true)
    ensures forall x :: x in all && x != a ==> w.nodes[x] == Rookie(x, a) && w.down[x] == [] && w.up[x] == []
  {
    var nodes := map x | x in all :: Fresh(x);
    assert nodes.Keys == all && |nodes.Keys| == |nodes|;
    hide CanElect, Init, Reachable, StartTerm, WellFormed;
    FirstElection(nodes, all, a);
    StartShape(nodes, all, a);
    w := StartTerm(nodes, all, a);
    InitIsReachable(w);
  }

  /** Both proposals of leader `a` have reached `b` and nobody else. */
  ghost predicate OnlyOneHasThem(w: World, all: set<string>, a: string, b: string, p1: Proposal, p2: Proposal) {
    && WellFormed(w) && w.nodes.Keys == all && w.leader == a && w.followers == all - {a} && b in w.followers
    && w.nodes[b] == Rookie(b, a).(count := 2, saved := [p1, p2], queue := [p1, p2], outbox := [To(a, Ack(p1)), To(a, Ack(p2))])
    && forall x :: x in all && x != a && x != b ==> w.nodes[x] == Rookie(x, a)
  }

  /** The first term with a quiet leader, everything it proposed on every link and nothing received. */
  ghost predicate OnLinks(w: World, all: set<string>, a: string, count: uint16, sent: seq<ZabMsg>) {
    && QuietLeader(w) && w.nodes.Keys == all && w.leader == a && w.followers == all - {a}
    && w.nodes[a].epoch == 0 && w.nodes[a].count == count
    && forall x :: x in all && x != a ==> w.nodes[x] == Rookie(x, a) && w.down[x] == sent
  }

  lemma OneMoreOnLinks(w: World, all: set<string>, a: string, count: uint16, sent: seq<ZabMsg>, content: seq<byte>) returns (w': World)
    requires Reachable(w) && OnLinks(w, all, a, count, sent) && count < 0xFFF0 && 0 < |content| < 0x1000_0000
    ensures Reachable(w') && OnLinks(w', all, a, count + 1, sent + [Prop(Proposal(STATE_CHANGE, 0, count + 1, content))])
  {
    hide Reachable, Reaches, Rookie, Stored, Proposed, NextProposal, Route;
    w' := Broadcasts(w, content);
    StaysQuiet(w.nodes[a], content);
    hide WellFormed, QuietNode;
    SentToAll(w, all, a, count, sent, NextProposal(w.nodes[a], content), Proposed(w.nodes[a], content).(outbox := []), w');
  }

  lemma SentToAll(w: World, all: set<string>, a: string, count: uint16, sent: seq<ZabMsg>, p: Proposal, ld: Node, w': World)
    requires OnLinks(w, all, a, count, sent) && WellFormed(w') && count < 0xFFF0
    requires w' == w.(nodes := w.nodes[w.leader := ld], down := map i | i in w.followers :: w.down[i] + [Prop(p)])
    requires QuietNode(ld, a) && ld.epoch == 0 && ld.count == count + 1
    ensures OnLinks(w', all, a, count + 1, sent + [Prop(p)])
  {
    hide Rookie;
    assert a in w.nodes;
    assert w'.nodes.Keys == all;
  }

  lemma StaysQuiet(ld: Node, content: seq<byte>)
    requires QuietNode(ld, ld.name) && ld.count < 0xFFF0
    ensures QuietNode(Proposed(ld, content).(outbox := []), ld.name) && Proposed(ld, content).count == ld.count + 1
    ensures Proposed(ld, content).epoch == ld.epoch
    ensures NextProposal(ld, content) == Proposal(STATE_CHANGE, ld.epoch, ld.count + 1, content)
  {
  }

  lemma FirstOnLinks(all: set<string>, a: string) returns (w: World)
    requires a in all && |all| >= 2
    ensures Reachable(w) && OnLinks(w, all, a, 0, [])
  {
    hide Reachable;
    w := FirstTerm(all, a);
  }

  /** Both proposals are on every link of the first term. */
  lemma BothOnLinks(all: set<string>, a: string, x1: seq<byte>, x2: seq<byte>) returns (w: World)
    requires a in all && |all| >= 2 && 0 < |x1| < 0x1000_0000 && 0 < |x2| < 0x1000_0000
    ensures Reachable(w) && OnLinks(w, all, a, 2, [Prop(FirstOf(x1)), Prop(SecondOf(x2))])
  {
    hide Reachable, OnLinks;
    var w0 := FirstOnLinks(all, a);
    var w1 := OneMoreOnLinks(w0, all, a, 0, [], x1);
    assert [] + [Prop(FirstOf(x1))] == [Prop(FirstOf(x1))];
    w := OneMoreOnLinks(w1, all, a, 1, [Prop(FirstOf(x1))], x2);
    assert [Prop(FirstOf(x1))] + [Prop(SecondOf(x2))] == [Prop(FirstOf(x1)), Prop(SecondOf(x2))];
  }

  lemma TwoProposals(all: set<string>, a: string, b: string, x1: seq<byte>, x2: seq<byte>) returns (w: World)
    requires a in all && b in all && a != b && |all| >= 2 && 0 < |x1| < 0x1000_0000 && 0 < |x2| < 0x1000_0000
    ensures Reachable(w) && OnlyOneHasThem(w, all, a, b, FirstOf(x1), SecondOf(x2))
  {
    hide Reachable, Takes, Process;
    var p1, p2 := FirstOf(x1), SecondOf(x2);
    var w2 := BothOnLinks(all, a, x1, x2);
    var f1 := Rookie(b, a).(count := 1, saved := [p1], queue := [p1], outbox := [To(a, Ack(p1))]);
    QueuesFirst(b, a, p1, |w2.nodes|);
    assert [Prop(p1)] + [Prop(p2)] == [Prop(p1), Prop(p2)];
    FollowerReceives(w2, b, Prop(p1), [Prop(p2)], f1);
    var w3 := w2.(nodes := w2.nodes[b := f1], down := w2.down[b := [Prop(p2)]]);
    TakesReaches(w2, DeliverDown(b), w3);
    var f2 := f1.(count := 2, saved := [p1, p2], queue := [p1, p2], outbox := [To(a, Ack(p1)), To(a, Ack(p2))]);
    QueuesSecond(b, a, p1, p2, |w3.nodes|);
    assert [Prop(p2)] + [] == [Prop(p2)];
    FollowerReceives(w3, b, Prop(p2), [], f2);
    w := w3.(nodes := w3.nodes[b := f2], down := w3.down[b := []]);
    TakesReaches(w3, DeliverDown(b), w);
  }

  lemma QueuesFirst(b: string, a: string, p1: Proposal, systems: nat)
    requires a != b && IsStateChange(p1) && p1.epoch == 0 && p1.count == 1
    ensures Process(Rookie(b, a), NetMsg(a, Prop(p1)), Denied([]), systems)
      == Rookie(b, a).(count := 1, saved := [p1], queue := [p1], outbox := [To(a, Ack(p1))])
  {
  }

  lemma QueuesSecond(b: string, a: string, p1: Proposal, p2: Proposal, systems: nat)
    requires a != b && IsStateChange(p2) && p2.epoch == 0 && p2.count == 2
    ensures var f1 := Rookie(b, a).(count := 1, saved := [p1], queue := [p1], outbox := [To(a, Ack(p1))]);
            Process(f1, NetMsg(a, Prop(p2)), Denied([]), systems)
              == f1.(count := 2, saved := [p1, p2], queue := [p1, p2], outbox := [To(a, Ack(p1)), To(a, Ack(p2))])
  {
  }

  // ---- Its successor announces itself ----

  function Announcement(): Proposal {
    NewLeaderProposal(1, 2)
  }

  /** The new leader's node once its announcement is on the links. */
  function Successor(b: string, ring: nat, p1: Proposal, p2: Proposal): Node {
    Rookie(b, b).(epoch := 1, count := 0, saved := [p1, p2, Announcement()], queue := [p1, p2], currentSync := Announcement(),
                  syncing := true, waiting := ring - 1)
  }

  ghost predicate Announced(w: World, all: set<string>, a: string, b: string, p1: Proposal, p2: Proposal) {
    && WellFormed(w) && w.nodes.Keys == all && w.leader == b && w.followers == all - {a, b} && a in all && b in all && a != b
    && w.nodes[b] == Successor(b, |all| - 1, p1, p2)
    && forall x :: x in w.followers ==> w.nodes[x] == Rookie(x, b) && w.down[x] == [Prop(Announcement())] && w.up[x] == []
  }

  /** The state right after the election, with three messages still in the sending queue. */
  ghost predicate Elected(w: World, all: set<string>, a: string, b: string, p1: Proposal, p2: Proposal, out: seq<Outgoing>) {
    && WellFormed(w) && w.nodes.Keys == all && w.leader == b && w.followers == all - {a, b} && a in all && b in all && a != b
    && w.nodes[b] == Successor(b, |all| - 1, p1, p2).(outbox := out)
    && forall x :: x in w.followers ==> w.nodes[x] == Rookie(x, b) && w.down[x] == [] && w.up[x] == []
  }

  lemma ElectReaches(w: World, ring: set<string>, x: string)
    requires Reachable(w) && WellFormed(w) && ring <= w.followers && CanElect(w.nodes, ring, x)
    ensures ring <= w.nodes.Keys && x in ring && Reachable(StartTerm(w.nodes, ring, x))
  {
    hide Reachable, StartTerm;
    ReachableStep(w, Elect(ring, x));
  }

  lemma SuccessorElected(all: set<string>, a: string, b: string, x1: seq<byte>, x2: seq<byte>) returns (w: World)
    requires a in all && b in all && a != b && |all| >= 3 && 0 < |x1| < 0x1000_0000 && 0 < |x2| < 0x1000_0000
    ensures Reachable(w)
    ensures var p1, p2 := FirstOf(x1), SecondOf(x2);
            Elected(w, all, a, b, p1, p2, [To(a, Ack(p1)), To(a, Ack(p2)), Broadcast(Prop(Announcement()))])
  {
    var p1, p2 := FirstOf(x1), SecondOf(x2);
    hide Reachable, StartTerm, CanElect, Elected;
    var w0 := TwoProposals(all, a, b, x1, x2);
    CanElectSuccessor(w0, all, a, b, p1, p2);
    ElectReaches(w0, all - {a}, b);
    w := StartTerm(w0.nodes, all - {a}, b);
    StartedBySuccessor(w0, all, a, b, p1, p2);
  }

  /** The state right after any election, node by node. */
  lemma StartShape(nodes: map<string, Node>, ring: set<string>, x: string)
    requires ring <= nodes.Keys && x in ring
    ensures var w := StartTerm(nodes, ring, x);
            && WellFormed(w) && w.nodes.Keys == nodes.Keys && w.leader == x && w.followers == ring - {x}
            && w.nodes[x] == SendNewLeader(nodes[x].(coordinator := x), |ring|) && w.lag == |w.nodes[x].queue|
            && (forall i :: i in nodes && i !in ring ==> w.nodes[i] == nodes[i])
            && forall i :: i in ring && i != x ==> w.nodes[i] == nodes[i].(coordinator := x) && w.down[i] == [] && w.up[i] == []
  {
    hide SendNewLeader;
    assert StartTerm(nodes, ring, x).nodes.Keys == nodes.Keys;
  }

  lemma CanElectSuccessor(w0: World, all: set<string>, a: string, b: string, p1: Proposal, p2: Proposal)
    requires OnlyOneHasThem(w0, all, a, b, p1, p2) && |all| >= 3 && a in all
    ensures CanElect(w0.nodes, all - {a}, b)
  {
    assert |w0.nodes.Keys| == |w0.nodes|;
    assert |all - {a}| == |all| - 1;
  }

  lemma SuccessorNode(b: string, a: string, ring: nat, p1: Proposal, p2: Proposal)
    ensures var n := Rookie(b, a).(count := 2, saved := [p1, p2], queue := [p1, p2], outbox := [To(a, Ack(p1)), To(a, Ack(p2))]);
            SendNewLeader(n.(coordinator := b), ring) == Successor(b, ring, p1, p2).(
              outbox := [To(a, Ack(p1)), To(a, Ack(p2)), Broadcast(Prop(Announcement()))])
  {
    hide Uint32ToBytes;
    assert [p1, p2] + [Announcement()] == [p1, p2, Announcement()];
  }

  lemma StartedBySuccessor(w0: World, all: set<string>, a: string, b: string, p1: Proposal, p2: Proposal)
    requires OnlyOneHasThem(w0, all, a, b, p1, p2) && |all| >= 3 && a in all && a != b
    ensures Elected(StartTerm(w0.nodes, all - {a}, b), all, a, b, p1, p2,
                    [To(a, Ack(p1)), To(a, Ack(p2)), Broadcast(Prop(Announcement()))])
  {
    hide SendNewLeader, Successor, StartTerm, WellFormed, Rookie;
    assert |all - {a}| == |all| - 1;
    assert all - {a} - {b} == all - {a, b};
    assert all - {a} <= w0.nodes.Keys;
    SuccessorNode(b, a, |all| - 1, p1, p2);
    StartShape(w0.nodes, all - {a}, b);
    forall x | x in all && x != a && x != b ensures w0.nodes[x].(coordinator := b) == Rookie(x, b) { RookieMoves(x, a, b); }
  }

  lemma RookieMoves(x: string, a: string, b: string)
    ensures Rookie(x, a).(coordinator := b) == Rookie(x, b)
  {
  }

  /** Acknowledgements to the old leader go nowhere. */
  lemma AckGoesNowhere(w: World, all: set<string>, a: string, b: string, p1: Proposal, p2: Proposal, m: ZabMsg, out: seq<Outgoing>)
    returns (w': World)
    requires Reachable(w) && Elected(w, all, a, b, p1, p2, [To(a, m)] + out)
    ensures Reachable(w') && Elected(w', all, a, b, p1, p2, out)
  {
    hide Reachable, Takes, Successor;
    LeaderSendsTo(w, a, m);
    assert ([To(a, m)] + out)[1..] == out;
    w' := w.(nodes := w.nodes[b := w.nodes[b].(outbox := out)], down := LinksAfter(w, a, m));
    TakesReaches(w, SendNext(b), w');
  }

  lemma SuccessorAnnounces(all: set<string>, a: string, b: string, x1: seq<byte>, x2: seq<byte>) returns (w: World)
    requires a in all && b in all && a != b && |all| >= 3 && 0 < |x1| < 0x1000_0000 && 0 < |x2| < 0x1000_0000
    ensures Reachable(w) && Announced(w, all, a, b, FirstOf(x1), SecondOf(x2))
  {
    hide Reachable, Takes, Elected;
    var p1, p2, m := FirstOf(x1), SecondOf(x2), Prop(Announcement());
    var w1 := SuccessorElected(all, a, b, x1, x2);
    assert [To(a, Ack(p1))] + [To(a, Ack(p2)), Broadcast(m)] == [To(a, Ack(p1)), To(a, Ack(p2)), Broadcast(m)];
    var w2 := AckGoesNowhere(w1, all, a, b, p1, p2, Ack(p1), [To(a, Ack(p2)), Broadcast(m)]);
    assert [To(a, Ack(p2))] + [Broadcast(m)] == [To(a, Ack(p2)), Broadcast(m)];
    var w3 := AckGoesNowhere(w2, all, a, b, p1, p2, Ack(p2), [Broadcast(m)]);
    w := AnnouncementSent(w3, all, a, b, p1, p2);
  }

  lemma AnnouncementSent(w: World, all: set<string>, a: string, b: string, p1: Proposal, p2: Proposal) returns (w': World)
    requires Reachable(w) && Elected(w, all, a, b, p1, p2, [Broadcast(Prop(Announcement()))])
    ensures Reachable(w') && Announced(w', all, a, b, p1, p2)
  {
    hide Reachable, Takes, Successor, Announcement, Rookie;
    var m := Prop(Announcement());
    LeaderBroadcasts(w, m);
    w' := w.(nodes := w.nodes[b := w.nodes[b].(outbox := [])], down := map i | i in w.followers :: w.down[i] + [m]);
    TakesReaches(w, SendNext(b), w');
    assert [] + [m] == [m];
    SuccessorIsQuiet(b, |all| - 1, p1, p2);
  }

  lemma SuccessorIsQuiet(b: string, ring: nat, p1: Proposal, p2: Proposal)
    ensures Successor(b, ring, p1, p2).outbox == []
  {
  }

  // ---- A follower receives the first of the two missing proposals ----

  /** The follower's request for everything after zxid 0. */
  const SYNC_FROM_START := Req(Request(Sync, 0, Uint32ToBytes(0)))

  function Asking(c: string, b: string): Node {
    Rookie(c, b).(saved := [Announcement()], track := SyncTracker(true, 2, Announcement()))
  }

  /** It has committed the first proposal and waits for the second. */
  function HalfWay(c: string, b: string, p1: Proposal): Node {
    Asking(c, b).(count := 1, saved := [Announcement(), p1], committed := [p1])
  }

  lemma AnnouncementReceived(c: string, b: string, systems: nat)
    requires c != b
    ensures Process(Rookie(c, b), NetMsg(b, Prop(Announcement())), Denied([]), systems)
      == Asking(c, b).(outbox := [To(b, SYNC_FROM_START)])
  {
    Uint32RoundTrip(2, []);
  }

  lemma FirstReceived(c: string, b: string, p1: Proposal, systems: nat)
    requires c != b && IsStateChange(p1) && p1.epoch == 0 && p1.count == 1
    ensures Process(Asking(c, b), NetMsg(b, Prop(p1)), Denied([]), systems) == HalfWay(c, b, p1)
  {
    hide Uint32ToBytes;
    assert [Announcement()] + [p1] == [Announcement(), p1];
  }

  lemma BothRead(p1: Proposal, p2: Proposal)
    requires p1.content != [] && p2.content != [] && p2.count == 2
    ensures ReadRecords([p1, p2], 1) == ProposalLog.Ok([p2]) && ReadRecords([p1, p2], 2) == ProposalLog.Ok([p1, p2])
    ensures HighestCount([p1, p2]) == 2
  {
    var both, one, two := [p1, p2], [p1], [p2];
    assert both[..|both| - 1] == one && one[..|one| - 1] == [] && two[..|two| - 1] == [];
    assert HasContent(one) && HasContent(both) && HasContent(two);
    assert LastK(both, 1) == two && LastK(both, 2) == both;
    hide HasContent, LastK;
  }

  lemma BothSent(p1: Proposal, p2: Proposal, req: Request)
    requires p1.content != [] && p2.content != [] && p2.count == 2
    ensures EarlierEpoch([p1, p2], 0, req) == [Prop(p1), Prop(p2)]
  {
    BothRead(p1, p2);
    hide ReadRecords, HighestCount;
    assert [p2][1..] == [] && AsMessages([p2]) == [Prop(p2)];
    assert [p1, p2][1..] == [p2] && AsMessages([p1, p2]) == [Prop(p1)] + AsMessages([p2]);
  }

  lemma ReplyToAll(p1: Proposal, p2: Proposal, req: Request)
    requires IsStateChange(p1) && p1.epoch == 0 && p1.count == 1 && p1.content != []
    requires IsStateChange(p2) && p2.epoch == 0 && p2.count == 2 && p2.content != []
    requires req.content == Uint32ToBytes(0)
    ensures Reply([p1, p2, Announcement()], 1, 0, req) == [Prop(p1), Prop(p2)]
  {
    var saved := [p1, p2, Announcement()];
    Uint32RoundTrip(0, []);
    RecordsOfBoth(p1, p2, Announcement());
    hide EpochRecords, Uint32ToBytes, BytesToUint32, Announcement, EarlierEpoch, AsMessages;
    BothSent(p1, p2, req);
    assert ReplyFrom(saved, 1, 0, 1, 0, req) == [] by { NothingLacking(EpochRecords(saved, 1), req); }
    assert ReplyFrom(saved, 0, 0, 1, 0, req) == EarlierEpoch([p1, p2], 0, req) + ReplyFrom(saved, 1, 0, 1, 0, req);
  }

  lemma NothingLacking(records: seq<Proposal>, req: Request)
    ensures EpochReply(records, 0, req) == []
  {
  }

  lemma RecordsOfBoth(p1: Proposal, p2: Proposal, nl: Proposal)
    requires p1.epoch == 0 && p2.epoch == 0 && nl.epoch == 1
    ensures EpochRecords([p1, p2, nl], 0) == [p1, p2]
  {
    assert [p1, p2, nl][..2] == [p1, p2] && [p1, p2][..1] == [p1] && [p1][..0] == [];
    assert EpochRecords([p1], 0) == [p1];
    assert EpochRecords([p1, p2], 0) == [p1, p2];
  }

  lemma ReplySent(b: string, c: string, ring: nat, p1: Proposal, p2: Proposal, systems: nat)
    requires b != c && IsStateChange(p1) && p1.epoch == 0 && p1.count == 1 && p1.content != []
    requires IsStateChange(p2) && p2.epoch == 0 && p2.count == 2 && p2.content != []
    ensures Process(Successor(b, ring, p1, p2), NetMsg(c, SYNC_FROM_START), Denied([]), systems)
      == Successor(b, ring, p1, p2).(outbox := [To(c, Prop(p1)), To(c, Prop(p2))])
  {
    var n, req := Successor(b, ring, p1, p2), SYNC_FROM_START.req;
    ReplyToAll(p1, p2, req);
    SendAllEffect(n, [Prop(p1), Prop(p2)], c);
    assert [Prop(p1), Prop(p2)][1..] == [Prop(p2)] && [Prop(p2)][1..] == [];
    assert Addressed([Prop(p2)], c) == [To(c, Prop(p2))];
    assert Addressed([Prop(p1), Prop(p2)], c) == [To(c, Prop(p1)), To(c, Prop(p2))];
    hide Reply, Uint32ToBytes, SendAll;
  }

  /** A follower that has just heard the announcement, next to a leader with nothing to send. */
  ghost predicate Hearing(w: World, b: string, c: string, ring: nat, p1: Proposal, p2: Proposal) {
    && WellFormed(w) && w.leader == b && c in w.followers && c != b
    && w.nodes[b] == Successor(b, ring, p1, p2)
    && w.nodes[c] == Rookie(c, b) && w.down[c] == [Prop(Announcement())] && w.up[c] == []
    && IsStateChange(p1) && p1.epoch == 0 && p1.count == 1 && p1.content != []
    && IsStateChange(p2) && p2.epoch == 0 && p2.count == 2 && p2.content != []
  }

  lemma CatchesFirst(w: World, b: string, c: string, ring: nat, p1: Proposal, p2: Proposal) returns (w': World)
    requires Reachable(w) && Hearing(w, b, c, ring, p1, p2)
    ensures Reachable(w') && WellFormed(w')
    ensures w' == w.(nodes := w.nodes[c := HalfWay(c, b, p1)], down := w.down[c := [Prop(p2)]])
  {
    hide Reachable, Takes, Successor, Rookie, Asking, HalfWay, Announcement, Process;
    var w1 := AsksForRest(w, b, c, ring, p1, p2);
    var w2 := IsAnswered(w1, b, c, ring, p1, p2);
    w' := ReceivesFirst(w2, b, c, p1, p2);
    UpdatedTwice(w.nodes, c, Asking(c, b), HalfWay(c, b, p1));
    UpdatedTwice(w.down, c, [], [Prop(p1), Prop(p2)]);
    UpdatedTwice(w.down, c, [Prop(p1), Prop(p2)], [Prop(p2)]);
    UpdatedBack(w.up, c, [SYNC_FROM_START]);
  }

  lemma ReceivesFirst(w: World, b: string, c: string, p1: Proposal, p2: Proposal) returns (w': World)
    requires Reachable(w) && WellFormed(w) && w.leader == b && c in w.followers && c != b
    requires w.nodes[c] == Asking(c, b) && w.down[c] == [Prop(p1), Prop(p2)]
    requires IsStateChange(p1) && p1.epoch == 0 && p1.count == 1
    ensures Reachable(w') && WellFormed(w')
    ensures w' == w.(nodes := w.nodes[c := HalfWay(c, b, p1)], down := w.down[c := [Prop(p2)]])
  {
    hide Reachable, Takes, Rookie, Asking, HalfWay, Process;
    FirstReceived(c, b, p1, |w.nodes|);
    assert [Prop(p1)] + [Prop(p2)] == [Prop(p1), Prop(p2)];
    NotStopped(c, b);
    FollowerReceives(w, c, Prop(p1), [Prop(p2)], HalfWay(c, b, p1));
    w' := w.(nodes := w.nodes[c := HalfWay(c, b, p1)], down := w.down[c := [Prop(p2)]]);
    TakesReaches(w, DeliverDown(c), w');
  }

  lemma NotStopped(c: string, b: string)
    ensures !Asking(c, b).stopped && !Rookie(c, b).stopped
  {
  }

  lemma AsksForRest(w: World, b: string, c: string, ring: nat, p1: Proposal, p2: Proposal) returns (w': World)
    requires Reachable(w) && Hearing(w, b, c, ring, p1, p2)
    ensures Reachable(w') && WellFormed(w')
    ensures w' == w.(nodes := w.nodes[c := Asking(c, b)], down := w.down[c := []], up := w.up[c := [SYNC_FROM_START]])
  {
    hide Reachable, Takes, Successor, Rookie, Process, Uint32ToBytes;
    AnnouncementReceived(c, b, |w.nodes|);
    NotStopped(c, b);
    var f := Asking(c, b).(outbox := [To(b, SYNC_FROM_START)]);
    assert [Prop(Announcement())] + [] == [Prop(Announcement())];
    FollowerReceives(w, c, Prop(Announcement()), [], f);
    var w1 := w.(nodes := w.nodes[c := f], down := w.down[c := []]);
    TakesReaches(w, DeliverDown(c), w1);
    FollowerSends(w1, c, SYNC_FROM_START);
    w' := w1.(nodes := w1.nodes[c := w1.nodes[c].(outbox := [])], up := w1.up[c := w1.up[c] + [SYNC_FROM_START]]);
    TakesReaches(w1, SendNext(c), w');
    assert [] + [SYNC_FROM_START] == [SYNC_FROM_START];
    assert f.(outbox := []) == Asking(c, b) by { AskingIsQuiet(c, b); }
  }

  lemma AskingIsQuiet(c: string, b: string)
    ensures Asking(c, b).(outbox := []) == Asking(c, b)
  {
  }

  lemma IsAnswered(w: World, b: string, c: string, ring: nat, p1: Proposal, p2: Proposal) returns (w': World)
    requires Reachable(w) && WellFormed(w) && w.leader == b && c in w.followers && c != b && w.nodes[b] == Successor(b, ring, p1, p2)
    requires w.down[c] == [] && w.up[c] == [SYNC_FROM_START]
    requires IsStateChange(p1) && p1.epoch == 0 && p1.count == 1 && p1.content != []
    requires IsStateChange(p2) && p2.epoch == 0 && p2.count == 2 && p2.content != []
    ensures Reachable(w') && WellFormed(w') && w' == w.(down := w.down[c := [Prop(p1), Prop(p2)]], up := w.up[c := []])
  {
    hide Reachable, Takes, Successor, Process, Uint32ToBytes;
    ReplySent(b, c, ring, p1, p2, |w.nodes|);
    var n, out := Successor(b, ring, p1, p2), [To(c, Prop(p1)), To(c, Prop(p2))];
    SuccessorRuns(b, ring, p1, p2);
    LeaderReceives(w, c, SYNC_FROM_START, n.(outbox := out));
    var w1 := w.(nodes := w.nodes[b := n.(outbox := out)], up := w.up[c := []]);
    TakesReaches(w, DeliverUp(c, Denied([])), w1);
    w' := SendsBoth(w1, c, Prop(p1), Prop(p2));
    assert n.(outbox := out).(outbox := []) == n;
    UpdatedTwice(w.nodes, b, n.(outbox := out), n);
    UpdatedBack(w.nodes, b, n);
  }

  /** Two messages to the same follower. */
  lemma SendsBoth(w: World, c: string, m1: ZabMsg, m2: ZabMsg) returns (w': World)
    requires Reachable(w) && WellFormed(w) && c in w.followers && w.down[c] == []
    requires w.nodes[w.leader].outbox == [To(c, m1), To(c, m2)]
    ensures Reachable(w') && WellFormed(w')
    ensures w' == w.(nodes := w.nodes[w.leader := w.nodes[w.leader].(outbox := [])], down := w.down[c := [m1, m2]])
  {
    hide Reachable, Takes;
    var n, b := w.nodes[w.leader], w.leader;
    assert n.outbox[1..] == [To(c, m2)] && [To(c, m2)][1..] == [];
    LeaderSendsTo(w, c, m1);
    var w1 := w.(nodes := w.nodes[b := n.(outbox := [To(c, m2)])], down := w.down[c := [] + [m1]]);
    TakesReaches(w, SendNext(b), w1);
    LeaderSendsTo(w1, c, m2);
    assert [] + [m1] + [m2] == [m1, m2];
    w' := w1.(nodes := w1.nodes[b := n.(outbox := [])], down := w1.down[c := [m1, m2]]);
    TakesReaches(w1, SendNext(b), w');
    UpdatedTwice(w.nodes, b, n.(outbox := [To(c, m2)]), n.(outbox := []));
    UpdatedTwice(w.down, c, [] + [m1], [m1, m2]);
  }

  lemma SuccessorRuns(b: string, ring: nat, p1: Proposal, p2: Proposal)
    ensures var n := Successor(b, ring, p1, p2); !n.stopped && n.outbox == [] && n.(outbox := []) == n
  {
  }

  // ---- A committed proposal that no later leader has ----

  /** Nodes `c` and, if they are different, `d` have the first of the two proposals; nobody else has
      any. */
  ghost predicate Caught(w: World, all: set<string>, a: string, b: string, c: string, d: string, p1: Proposal) {
    && WellFormed(w) && w.nodes.Keys == all && w.leader == b && w.followers == all - {a, b} && a in all && b in all && a != b
    && c in w.followers && d in w.followers && !w.nodes[b].processing
    && w.nodes[c] == HalfWay(c, b, p1) && w.nodes[d] == HalfWay(d, b, p1)
    && forall x :: x in w.followers && x != c && x != d ==> w.nodes[x] == Rookie(x, b)
  }

  lemma OneCatchesFirst(all: set<string>, a: string, b: string, c: string, x1: seq<byte>, x2: seq<byte>) returns (w: World)
    requires Distinct3(all, a, b, c) && 0 < |x1| < 0x1000_0000 && 0 < |x2| < 0x1000_0000
    ensures Reachable(w) && Caught(w, all, a, b, c, c, FirstOf(x1))
    ensures w.nodes[b] == Successor(b, |all| - 1, FirstOf(x1), SecondOf(x2))
    ensures forall x :: x in w.followers && x != c ==> w.down[x] == [Prop(Announcement())] && w.up[x] == []
  {
    hide Reachable, Successor, Rookie, HalfWay, Announcement;
    assert {a, b, c} <= all;
    SubsetSize({a, b, c}, all);
    var w0 := SuccessorAnnounces(all, a, b, x1, x2);
    w := CatchesFirst(w0, b, c, |all| - 1, FirstOf(x1), SecondOf(x2));
    SuccessorNotOpen(b, |all| - 1, FirstOf(x1), SecondOf(x2));
  }

  lemma SuccessorNotOpen(b: string, ring: nat, p1: Proposal, p2: Proposal)
    ensures !Successor(b, ring, p1, p2).processing
  {
  }

  /** In every cluster of at least seven nodes a follower can commit a proposal that three crashes
      later no leader has any more, and whose zxid goes to another proposal: `c` committed it in sync
      mode, before the term was open, while a majority lacked it. */
  lemma CommittedAndLost(all: set<string>, a: string, b: string, c: string, x: string, x1: seq<byte>, x2: seq<byte>, other: seq<byte>)
    returns (w: World, w': World, w'': World)
    requires Distinct3(all, a, b, c) && x in all - {a, b, c} && |all| >= 7
    requires 0 < |x1| < 0x1000_0000 && 0 < |x2| < 0x1000_0000 && 0 < |other| < 0x1000_0000
    ensures Reachable(w) && c in w.followers && c in w.nodes && w.nodes[c].committed == [FirstOf(x1)]
    ensures !FewLack(w, w.nodes[c].committed)
    ensures Reaches(w, w') && w'.leader == x && x in w'.nodes && LeaderLogOf(w') == []
    ensures Reaches(w', w'') && w''.leader == x && x in w''.nodes && LeaderLogOf(w'') == [FirstOf(other)]
  {
    hide Reachable, Reaches, StartTerm, Log;
    var p1 := FirstOf(x1);
    w := OneCatchesFirst(all, a, b, c, x1, x2);
    var ring := all - {a, b, c};
    RookiesCanElect(w, all, a, b, c, p1, x);
    LosingElection(w, ring, x, [p1]) by { RookieLog(x, b); }
    w' := StartTerm(w.nodes, ring, x);
    RookieLog(x, b);
    OneLacksElection(w, w', x, p1);
    RookieLeads(w, all, a, b, c, p1, x);
    ElectReaches(w, ring, x);
    w'' := Broadcasts(w', other);
    OnlyProposal(w'.nodes[x], other);
  }

  lemma RookiesCanElect(w: World, all: set<string>, a: string, b: string, c: string, p1: Proposal, x: string)
    requires Caught(w, all, a, b, c, c, p1) && x in all - {a, b, c} && |all| >= 7
    ensures CanElect(w.nodes, all - {a, b, c}, x) && all - {a, b, c} <= w.followers
  {
    assert |w.nodes.Keys| == |w.nodes|;
    assert |{a, b, c}| == 3;
    assert |all - {a, b, c}| == |all| - 3;
  }

  lemma RookieLog(x: string, b: string)
    ensures Log(Rookie(x, b)) == []
  {
  }

  lemma OneLacksElection(w: World, w': World, x: string, p1: Proposal)
    requires Reachable(w) && Reaches(w, w') && w'.leader == x && x in w'.nodes && LeaderLogOf(w') == []
    ensures !FewLack(w, [p1])
  {
    hide Reachable, Reaches, Log;
    if FewLack(w, [p1]) { StaysKept(w, w', [p1]); }
  }

  lemma RookieLeads(w: World, all: set<string>, a: string, b: string, c: string, p1: Proposal, x: string)
    requires Caught(w, all, a, b, c, c, p1) && x in all - {a, b, c}
    ensures var w' := StartTerm(w.nodes, all - {a, b, c}, x);
            QuietLeader(w') && w'.leader == x && w'.nodes[x] == Rookie(x, x).(processing := true)
  {
    StartShape(w.nodes, all - {a, b, c}, x);
  }

  lemma OnlyProposal(n: Node, content: seq<byte>)
    requires n.saved == [] && n.epoch == 0 && n.count == 0
    ensures Log(Proposed(n, content).(outbox := [])) == [FirstOf(content)]
  {
    var p := FirstOf(content);
    assert NextProposal(n, content) == p;
    StateChangesAppend([], p);
    assert [] + [p] == [p] && n.saved + [p] == [p];
  }

  // ---- A follower stuck in sync mode ----

  lemma TwoCatchFirst(all: set<string>, a: string, b: string, c: string, d: string, x1: seq<byte>, x2: seq<byte>) returns (w: World)
    requires Distinct3(all, a, b, c) && d in all - {a, b, c} && 0 < |x1| < 0x1000_0000 && 0 < |x2| < 0x1000_0000
    ensures Reachable(w) && Caught(w, all, a, b, c, d, FirstOf(x1))
  {
    hide Reachable, Successor, Rookie, HalfWay, Announcement;
    var w1 := OneCatchesFirst(all, a, b, c, x1, x2);
    w := CatchesFirst(w1, b, d, |all| - 1, FirstOf(x1), SecondOf(x2));
  }

  /** Two nodes that have the same first part of a leader's log, both still in sync mode when that
      leader is gone: one of them wins the election, and the other is stuck. */
  lemma StuckIsReached(all: set<string>, a: string, b: string, c: string, d: string, x1: seq<byte>, x2: seq<byte>) returns (w: World)
    requires Distinct3(all, a, b, c) && d in all - {a, b, c} && |all| >= 6
    requires 0 < |x1| < 0x1000_0000 && 0 < |x2| < 0x1000_0000
    ensures Reachable(w) && all - {a, b} <= w.followers
    ensures Wins(w.nodes, all - {a, b}, d) && w.nodes[d].epoch < 0xFFFF && Stuck(w.nodes, d, c) && c in all - {a, b}
    ensures Caught(w, all, a, b, c, d, FirstOf(x1))
  {
    hide Reachable, Caught, Wins, Stuck;
    w := TwoCatchFirst(all, a, b, c, d, x1, x2);
    CaughtCanWin(w, all, a, b, c, d, FirstOf(x1));
  }

  lemma CaughtCanWin(w: World, all: set<string>, a: string, b: string, c: string, d: string, p1: Proposal)
    requires Caught(w, all, a, b, c, d, p1) && Distinct3(all, a, b, c) && d in all - {a, b, c} && |all| >= 6 && p1.count == 1
    ensures d in w.nodes && all - {a, b} <= w.followers
    ensures Wins(w.nodes, all - {a, b}, d) && w.nodes[d].epoch < 0xFFFF && Stuck(w.nodes, d, c)
  {
    assert |w.nodes.Keys| == |w.nodes|;
    assert |{a, b}| == 2;
    assert |all - {a, b}| == |all| - 2;
  }

  /** What the new leader sends then makes the stuck follower commit a proposal before any COMMIT,
      acknowledge something else, and exit on the COMMIT. */
  lemma StuckFollowerFails(all: set<string>, a: string, b: string, c: string, d: string, x1: seq<byte>, x2: seq<byte>, content: seq<byte>)
    returns (w: World)
    requires Distinct3(all, a, b, c) && d in all - {a, b, c} && |all| >= 6
    requires 0 < |x1| < 0x1000_0000 && 0 < |x2| < 0x1000_0000
    ensures Reachable(w) && Wins(w.nodes, all - {a, b}, d) && Stuck(w.nodes, d, c)
    ensures var w' := StartTerm(w.nodes, all - {a, b}, d);
            && c in w'.nodes && d in w'.nodes
            && var f, nl, p := w'.nodes[c], w'.nodes[d].currentSync, NextProposal(w'.nodes[d], content);
              && w'.nodes[d].outbox != [] && w'.nodes[d].outbox[|w'.nodes[d].outbox| - 1] == Broadcast(Prop(nl))
              && OnProposal(OnProposal(f, nl, d), p, d).committed == f.committed + [p]
              && OnProposal(OnProposal(OnProposal(f, nl, d), p, d), COMMIT_MSG.prop, d).stopped
  {
    hide Reachable;
    w := StuckIsReached(all, a, b, c, d, x1, x2);
    StartShape(w.nodes, all - {a, b}, d);
    hide StartTerm, Wins, Caught;
    HalfWayLeads(c, d, b, FirstOf(x1), |all - {a, b}|, content) by { assert Caught(w, all, a, b, c, d, FirstOf(x1)); }
  }

  lemma HalfWayLeads(c: string, d: string, b: string, p1: Proposal, ring: nat, content: seq<byte>)
    requires c != d && IsStateChange(p1) && p1.epoch == 0 && p1.count == 1
    ensures var f, ld := HalfWay(c, b, p1).(coordinator := d), SendNewLeader(HalfWay(d, b, p1).(coordinator := d), ring);
            var nl, p := ld.currentSync, NextProposal(ld, content);
            && ld.outbox == [Broadcast(Prop(nl))]
            && OnProposal(OnProposal(f, nl, d), p, d).committed == f.committed + [p]
            && OnProposal(OnProposal(OnProposal(f, nl, d), p, d), COMMIT_MSG.prop, d).stopped
  {
    HalfWayMeets(c, d, b, p1, ring, content);
    hide *;
    var f, ld := HalfWay(c, b, p1).(coordinator := d), SendNewLeader(HalfWay(d, b, p1).(coordinator := d), ring);
    StaleSyncModeBreaksTerm(f, ld.currentSync, NextProposal(ld, content));
    assert f.committed + [] == f.committed;
  }

  /** The follower is at the new leader's zxid, in sync mode, with nothing queued. */
  lemma HalfWayMeets(c: string, d: string, b: string, p1: Proposal, ring: nat, content: seq<byte>)
    requires c != d && IsStateChange(p1) && p1.epoch == 0 && p1.count == 1
    ensures var f, ld := HalfWay(c, b, p1).(coordinator := d), SendNewLeader(HalfWay(d, b, p1).(coordinator := d), ring);
            var nl, p := ld.currentSync, NextProposal(ld, content);
            && f.coordinator == d != f.name && f.track.active && f.queue == [] && !f.stopped && ld.outbox == [Broadcast(Prop(nl))]
            && nl.kind == NEW_LEADER && |nl.content| == 4 && f.Id() == BytesToUint32(nl.content)
            && IsStateChange(p) && f.track.cap <= p.Id()
  {
    var n := HalfWay(d, b, p1).(coordinator := d);
    CallAtOne(n, ring, content) by { assert n.epoch == 0 && n.count == 1 && !n.syncing && n.outbox == []; }
    hide *;
    HalfWayNode(c, b, p1, d);
  }

  lemma HalfWayNode(c: string, b: string, p1: Proposal, d: string)
    requires p1.count == 1
    ensures var f := HalfWay(c, b, p1).(coordinator := d);
            f.name == c && f.track.active && f.track.cap == 2 && f.queue == [] && !f.stopped && f.Id() == 1
  {
    hide Uint32ToBytes;
  }

  /** What a node whose last zxid is 1 announces, and its first proposal. */
  lemma CallAtOne(n: Node, ring: nat, content: seq<byte>)
    requires n.epoch == 0 && n.count == 1 && !n.syncing && n.outbox == []
    ensures var ld := SendNewLeader(n, ring);
            var nl, p := ld.currentSync, NextProposal(ld, content);
            && ld.outbox == [Broadcast(Prop(nl))] && nl.kind == NEW_LEADER && |nl.content| == 4 && BytesToUint32(nl.content) == 1
            && IsStateChange(p) && p.Id() == 0x1_0001
  {
    Uint32RoundTrip(1, []);
    hide Uint32ToBytes, BytesToUint32;
    assert n.Id() == 1;
  }
}
