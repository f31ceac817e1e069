/** Starting a term: a majority of nodes whose logs are prefixes of the elected node's log satisfy
    the invariant right after the announcement. */
module NewTerm {
  import opened Zxid
  import opened Collections
  import opened Messages
  import opened Channel
  import opened SyncReply
  import opened ProposalLog
  import opened ZabNode
  import opened FollowerSteps
  import opened LeaderSteps
  import opened TermSteps
  import opened Cluster
  import opened ClusterSafety

  /** A node that can take part in a new term: it does not lead, and its log is a prefix of `log`. */
  ghost predicate Prepared(n: Node, log: seq<Proposal>, names: set<string>) {
    Idle(n) && Consistent(n, log) && NoneFor(n.outbox, names)
  }

  ghost predicate AllPrepared(nodes: map<string, Node>, ring: set<string>, log: seq<Proposal>) {
    && Dense(log) && |nodes| >= 2 && ring <= nodes.Keys
    && (forall x :: x in nodes ==> nodes[x].name == x)
    && (forall x :: x in ring ==> Prepared(nodes[x], log, ring))
  }

  /** Of two prefixes of one log, the one with the larger last zxid is the longer one. */
  lemma HigherIdHasMore(n: Node, m: Node, log: seq<Proposal>)
    requires Dense(log) && Consistent(n, log) && Consistent(m, log) && n.Id() <= m.Id()
    ensures Log(n) <= Log(m) && Consistent(n, Log(m)) && Dense(Log(m))
    ensures n.Id() == m.Id() <==> |Log(n)| == |Log(m)|
  {
    hide WellSaved, StateChanges, Dense, LastId;
    var a, b := |Log(n)|, |Log(m)|;
    assert log[..a] == Log(n) && log[..b] == Log(m);
    LastIdOrder(log, b, a);
    DensePrefix(log, b);
    assert Log(n) == Log(m)[..a];
  }

  /** A follower of the new term, told about its coordinator, with the announcement on its way. */
  lemma FollowerPrepared(v: View, n: Node, names: set<string>, ring: set<string>)
    requires ViewOk(v) && Prepared(n, v.log, ring) && v.leader in ring && names == ring - {v.leader} && n.name in names
    requires v.base == |v.log| && v.fired == 0
    requires n.track.active ==> |Log(n)| < v.base
    requires v.open ==> v.log == []
    ensures var p := Peer(n.(coordinator := v.leader), if v.open then [] else [Prop(v.nl)], [] + Route(n.outbox, v.leader));
            InStep(v, p, names) && PeerAcked(v, p) <= 0 && (!v.open ==> Unsettled(v, p))
  {
    hide WellSaved, Dense, LastId;
    RoutedNowhere(n.outbox, v.leader, ring);
    var f := n.(coordinator := v.leader);
    assert Log(f) == Log(n);
    assert Consistent(f, v.log);
    if v.open {
      assert Ready(v, f, [], []);
    } else {
      assert Waiting(v, f, [Prop(v.nl)], []);
    }
  }

  lemma {:induction false} RoutedNowhere(out: seq<Outgoing>, target: string, ring: set<string>)
    requires NoneFor(out, ring) && target in ring
    ensures Route(out, target) == []
  {
    if out != [] {
      RoutedNowhere(out[1..], target, ring);
    }
  }

  /** What the elected node becomes. */
  lemma AnnouncementOfLeader(n: Node, ring: set<string>)
    requires Prepared(n, Log(n), ring) && Dense(Log(n)) && n.epoch < 0xFFFF && n.name in ring && n.coordinator == n.name
    ensures var ld, log := SendNewLeader(n, |ring|), Log(n);
            var v := ViewOf(ld, |ld.queue|);
            && v.leader == n.name && v.log == log && v.base == |log| && v.fired == 0 && v.open == (log == [])
            && ld.outbox == n.outbox + (if v.open then [] else [Broadcast(Prop(v.nl))])
            && ViewOk(v) && ld.name == ld.coordinator && !ld.stopped && ld.processing == v.open
            && ld.waiting == (if v.open then n.waiting else |ring| - 1)
            && LeaderLog(v, ld, |ld.queue|) && ld.count == 0 && ld.acks == map[] && ld.inbox == [] && ld.holding == []
            && v.nl == ld.currentSync && (!v.open ==> v.nl.epoch == ld.epoch)
  {
    hide WellSaved, StateChanges, Dense;
    var ld, log := SendNewLeader(n, |ring|), Log(n);
    if log != [] {
      DenseEntry(log, |log| - 1);
      WellSavedAppend(n.saved, ld.currentSync);
      ComposeOrder(n.epoch, n.count, log[|log| - 1].epoch, log[|log| - 1].count);
    } else {
      assert n.outbox + [] == n.outbox;
    }
  }

  lemma CountedNewTerm(v: View, ld: Node, acked: map<string, int>, systems: nat)
    requires ld.count == 0 && ld.acks == map[] && (forall i <- acked :: acked[i] <= 0)
    ensures Counted(v, ld, acked, systems)
  {
  }

  lemma LeaderOfNewTerm(n: Node, ring: set<string>, acked: map<string, int>, systems: nat)
    requires Prepared(n, Log(n), ring) && Dense(Log(n)) && n.epoch < 0xFFFF && n.name in ring && n.coordinator == n.name
    requires acked.Keys == ring - {n.name} && (forall i <- acked :: acked[i] <= 0) && |ring| <= systems && systems >= 2
    ensures var ld := SendNewLeader(n, |ring|);
            Leader(ViewOf(ld, |ld.queue|), ld, |ld.queue|, acked, |ring| - 1, systems)
  {
    AnnouncementOfLeader(n, ring);
    hide Prepared, Dense, SendNewLeader, ViewOf, LeaderLog, ViewOk;
    var ld := SendNewLeader(n, |ring|);
    var v := ViewOf(ld, |ld.queue|);
    assert |acked| == |acked.Keys| == |ring| - 1;
    CountedNewTerm(v, ld, acked, systems);
    hide Counted, Log;
    assert AllWrites([]);
    assert ViewOk(v) && LeaderLog(v, ld, |ld.queue|);
    hide AllWrites;
  }

  /** The announcement is all there is on the way to a follower. */
  lemma AnnouncementRouted(out: seq<Outgoing>, ring: set<string>, announced: seq<Outgoing>, i: string)
    requires NoneFor(out, ring) && i in ring
    requires announced == [] || (|announced| == 1 && announced[0].Broadcast?)
    ensures Route(out + announced, i) == if announced == [] then [] else [announced[0].msg]
  {
    RoutedNowhere(out, i, ring);
    RouteAppend(out, announced, i);
    if announced != [] {
      assert announced == [announced[0]];
      RouteOne(announced[0], i);
    }
  }

  /** What a node of the ring holds, relative to the elected one. */
  lemma RingNode(nodes: map<string, Node>, ring: set<string>, leader: string, log: seq<Proposal>, i: string)
    requires AllPrepared(nodes, ring, log) && CanElect(nodes, ring, leader) && i in ring
    ensures var n, f := nodes[leader].(coordinator := leader), nodes[i];
            && f.name == i && Prepared(f, Log(n), ring) && Prepared(n, Log(n), ring) && Dense(Log(n))
            && (i != leader && f.track.active ==> |Log(f)| < |Log(n)|)
            && n.name == leader && n.epoch < 0xFFFF
  {
    hide WellSaved, StateChanges, Dense, LastId, NoneFor;
    HigherIdHasMore(nodes[leader], nodes[leader], log);
    HigherIdHasMore(nodes[i], nodes[leader], log);
    assert Prepared(nodes[i], log, ring) && Prepared(nodes[leader], log, ring);
  }

  /** A follower of the new term with its links. */
  function NewPeer(n: Node, ring: set<string>, f: Node): Peer {
    Peer(f.(coordinator := n.name), [] + Route(SendNewLeader(n, |ring|).outbox, f.name), [] + Route(f.outbox, n.name))
  }

  lemma PeerOfNewTerm(n: Node, ring: set<string>, f: Node)
    requires n.name in ring && f.name in ring - {n.name} && n.coordinator == n.name && n.epoch < 0xFFFF && Dense(Log(n))
    requires Prepared(f, Log(n), ring) && Prepared(n, Log(n), ring)
    requires f.track.active ==> |Log(f)| < |Log(n)|
    ensures var ld, p := SendNewLeader(n, |ring|), NewPeer(n, ring, f);
            var v := ViewOf(ld, |ld.queue|);
            InStep(v, p, ring - {n.name}) && PeerAcked(v, p) <= 0 && (!v.open ==> Unsettled(v, p))
  {
    hide Dense, SendNewLeader, LeaderLog, InStep, PeerAcked, Unsettled, NoneFor, Route, ViewOf;
    AnnouncementOfLeader(n, ring);
    var ld := SendNewLeader(n, |ring|);
    var v := ViewOf(ld, |ld.queue|);
    AnnouncementRouted(n.outbox, ring, if v.open then [] else [Broadcast(Prop(v.nl))], f.name) by { assert NoneFor(n.outbox, ring); }
    hide ViewOk, Prepared, Log;
    assert NewPeer(n, ring, f).down == if v.open then [] else [Prop(v.nl)];
    FollowerPrepared(v, f, ring - {n.name}, ring);
  }

  lemma NewPeersOfStart(nodes: map<string, Node>, ring: set<string>, leader: string)
    requires ring <= nodes.Keys && leader in ring && forall x :: x in nodes ==> nodes[x].name == x
    ensures var n, w := nodes[leader].(coordinator := leader), StartTerm(nodes, ring, leader);
            && WellFormed(w) && w.leader == leader && w.nodes[leader] == SendNewLeader(n, |ring|) && w.lag == |w.nodes[leader].queue|
            && PeersOf(w) == NewPeers(nodes, ring, leader)
  {
    hide Route, SendNewLeader;
  }

  lemma NamesOfNewTerm(nodes: map<string, Node>, ring: set<string>, leader: string, log: seq<Proposal>)
    requires AllPrepared(nodes, ring, log) && CanElect(nodes, ring, leader)
    ensures var w := StartTerm(nodes, ring, leader);
            && (forall x :: x in w.nodes ==> w.nodes[x].name == x) && |w.nodes| == |nodes| >= 2
            && |w.followers| == |ring| - 1 >= |nodes| / 2 && |ring| <= |nodes|
  {
    SubsetSize(ring, nodes.Keys);
    hide Prepared;
    NamesKept(nodes, ring, leader);
    hide StartTerm, Dense;
    assert |nodes.Keys| == |nodes| && |StartTerm(nodes, ring, leader).nodes.Keys| == |StartTerm(nodes, ring, leader).nodes|;
  }

  lemma NamesKept(nodes: map<string, Node>, ring: set<string>, leader: string)
    requires ring <= nodes.Keys && leader in ring && forall x :: x in nodes ==> nodes[x].name == x
    ensures var w := StartTerm(nodes, ring, leader);
            && w.nodes.Keys == nodes.Keys && w.followers == ring - {leader}
            && forall x :: x in w.nodes ==> w.nodes[x].name == x
  {
    KeepsName(nodes[leader].(coordinator := leader), |ring|);
    hide SendNewLeader;
  }

  lemma KeepsName(n: Node, addresses: nat)
    ensures SendNewLeader(n, addresses).name == n.name
  {
  }

  lemma TermInvOfNewTerm(n: Node, ring: set<string>, peers: Peers, systems: nat)
    requires Prepared(n, Log(n), ring) && Dense(Log(n)) && n.epoch < 0xFFFF && n.name in ring && n.coordinator == n.name
    requires peers.Keys == ring - {n.name} && |ring| <= systems && systems >= 2
    requires var ld := SendNewLeader(n, |ring|);
             var v := ViewOf(ld, |ld.queue|);
             forall i <- peers :: InStep(v, peers[i], peers.Keys) && PeerAcked(v, peers[i]) <= 0
                                  && (!v.open ==> Unsettled(v, peers[i]))
    ensures var ld := SendNewLeader(n, |ring|); TermInv(ViewOf(ld, |ld.queue|), ld, |ld.queue|, peers, systems)
  {
    hide Prepared, InStep, SendNewLeader, PeerAcked, Unsettled, ViewOf, Dense, Leader, AckedBy, UnsettledPeers, PeersOk, Log;
    var ld := SendNewLeader(n, |ring|);
    var v := ViewOf(ld, |ld.queue|);
    NothingAcked(v, peers);
    AllUnsettled(v, peers);
    AllInStep(v, peers);
    assert |peers.Keys| == |ring| - 1;
    LeaderPart(n, ring, AckedBy(v, peers), |UnsettledPeers(v, peers)|, systems);
  }

  lemma LeaderPart(n: Node, ring: set<string>, acked: map<string, int>, outstanding: nat, systems: nat)
    requires Prepared(n, Log(n), ring) && Dense(Log(n)) && n.epoch < 0xFFFF && n.name in ring && n.coordinator == n.name
    requires acked.Keys == ring - {n.name} && (forall i <- acked :: acked[i] <= 0) && |ring| <= systems && systems >= 2
    requires var ld := SendNewLeader(n, |ring|); !ViewOf(ld, |ld.queue|).open ==> outstanding == |ring| - 1
    ensures var ld := SendNewLeader(n, |ring|);
            Leader(ViewOf(ld, |ld.queue|), ld, |ld.queue|, acked, outstanding, systems)
  {
    hide Prepared, SendNewLeader, ViewOf, Dense, Leader, Log;
    var ld := SendNewLeader(n, |ring|);
    var v := ViewOf(ld, |ld.queue|);
    LeaderOfNewTerm(n, ring, acked, systems);
    if v.open { OpenIgnoresOutstanding(v, ld, |ld.queue|, acked, |ring| - 1, systems, outstanding); }
  }

  lemma AllInStep(v: View, peers: Peers)
    requires forall i <- peers :: InStep(v, peers[i], peers.Keys)
    ensures PeersOk(v, peers)
  {
    hide InStep;
  }

  lemma NothingAcked(v: View, peers: Peers)
    requires forall i <- peers :: PeerAcked(v, peers[i]) <= 0
    ensures AckedBy(v, peers).Keys == peers.Keys && forall i <- AckedBy(v, peers) :: AckedBy(v, peers)[i] <= 0
  {
    hide PeerAcked;
  }

  lemma AllUnsettled(v: View, peers: Peers)
    requires forall i <- peers :: !v.open ==> Unsettled(v, peers[i])
    ensures !v.open ==> UnsettledPeers(v, peers) == peers.Keys
  {
    hide Unsettled;
  }

  function NewPeers(nodes: map<string, Node>, ring: set<string>, leader: string): Peers
    requires ring <= nodes.Keys && leader in ring
  {
    map i | i in ring - {leader} :: NewPeer(nodes[leader].(coordinator := leader), ring, nodes[i])
  }

  lemma NewPeersInStep(nodes: map<string, Node>, ring: set<string>, leader: string, log: seq<Proposal>)
    requires AllPrepared(nodes, ring, log) && CanElect(nodes, ring, leader)
    ensures var ld, peers := SendNewLeader(nodes[leader].(coordinator := leader), |ring|), NewPeers(nodes, ring, leader);
            && peers.Keys == ring - {leader}
            && TermInv(ViewOf(ld, |ld.queue|), ld, |ld.queue|, peers, |nodes|)
  {
    var n, peers := nodes[leader].(coordinator := leader), NewPeers(nodes, ring, leader);
    var ld := SendNewLeader(n, |ring|);
    var v := ViewOf(ld, |ld.queue|);
    RingNode(nodes, ring, leader, log, leader);
    SubsetSize(ring, nodes.Keys);
    hide Prepared, InStep, SendNewLeader, PeerAcked, Unsettled, ViewOf, Dense, NewPeer, TermInv, Log;
    assert peers.Keys == ring - {n.name};
    forall i | i in peers ensures InStep(v, peers[i], peers.Keys) && PeerAcked(v, peers[i]) <= 0 && (!v.open ==> Unsettled(v, peers[i])) {
      RingNode(nodes, ring, leader, log, i);
      PeerOfNewTerm(n, ring, nodes[i]);
    }
    assert leader in ring && |nodes| >= 2 && |ring| <= |nodes|;
    hide AllPrepared, CanElect, NewPeers;
    TermInvOfNewTerm(n, ring, peers, |nodes|);
  }

  // ---- The condition is exact ----

  /** A follower in sync mode lacks something of the log before the term. */
  lemma ActiveLacks(v: View, f: Node, down: seq<ZabMsg>, up: seq<ZabMsg>)
    requires Follower(v, f, down, up) && f.track.active
    ensures |Log(f)| < v.base
  {
    hide Consistent, Carried, Syncs, Acks, OnlyStateChanges, Log;
  }

  /** The new epoch follows the last one of the log only if the counter did not wrap. */
  lemma EpochLeft(n: Node, ring: set<string>)
    requires Prepared(n, Log(n), ring) && ViewOk(ViewOf(SendNewLeader(n, |ring|), |SendNewLeader(n, |ring|).queue|))
    ensures n.epoch < 0xFFFF && SendNewLeader(n, |ring|).count == 0 && Log(SendNewLeader(n, |ring|)) == Log(n)
  {
    hide WellSaved, StateChanges, Dense, NoneFor;
    var ld, log := SendNewLeader(n, |ring|), Log(n);
    if n.Id() != 0 {
      WellSavedGrows(n.saved, ld.currentSync);
      assert ld.saved == n.saved + [ld.currentSync];
      assert Log(ld) == log && log != [];
      ComposeOrder(n.epoch, n.count, log[|log| - 1].epoch, log[|log| - 1].count);
    }
  }

  lemma WellSavedGrows(saved: seq<Proposal>, nl: Proposal)
    requires nl.kind == NEW_LEADER
    ensures StateChanges(saved + [nl]) == StateChanges(saved)
  {
    hide StateChanges;
    StateChangesAppend(saved, nl);
    assert StateChanges(saved) + [] == StateChanges(saved);
  }

  lemma FollowerOfStart(nodes: map<string, Node>, ring: set<string>, leader: string, i: string)
    requires ring <= nodes.Keys && leader in ring && i in ring - {leader} && Inv(StartTerm(nodes, ring, leader))
    ensures var w := StartTerm(nodes, ring, leader);
            && w.leader in w.nodes && i in w.nodes && w.nodes[i] == nodes[i].(coordinator := leader) && ViewOk(TermView(w))
            && (nodes[i].track.active ==> |Log(w.nodes[i])| < TermView(w).base)
  {
    var w := StartTerm(nodes, ring, leader);
    assert w.nodes[i] == nodes[i].(coordinator := leader) && i in w.followers;
    hide StartTerm, TermInv, ViewOf, PeersOf, Follower, NoneFor, FromFollower, Log, ViewOk;
    TermFacts(TermView(w), w.nodes[w.leader], w.lag, PeersOf(w), |w.nodes|);
    PeersAre(w, i);
    var p := PeersOf(w)[i];
    assert InStep(TermView(w), p, PeersOf(w).Keys);
    if p.node.track.active { ActiveLacks(TermView(w), p.node, p.down, p.up); }
  }

  lemma LeaderOfStart(nodes: map<string, Node>, ring: set<string>, leader: string)
    requires ring <= nodes.Keys && leader in ring && Inv(StartTerm(nodes, ring, leader))
    ensures var w, ld := StartTerm(nodes, ring, leader), SendNewLeader(nodes[leader].(coordinator := leader), |ring|);
            w.leader in w.nodes && TermView(w) == ViewOf(ld, |ld.queue|) && ViewOk(TermView(w))
  {
    hide TermInv, SendNewLeader, ViewOf, PeersOf, ViewOk;
    var w := StartTerm(nodes, ring, leader);
    TermFacts(TermView(w), w.nodes[w.leader], w.lag, PeersOf(w), |w.nodes|);
  }

  /** The elected node by itself. */
  lemma ElectedAlone(nodes: map<string, Node>, ring: set<string>, leader: string, log: seq<Proposal>)
    requires AllPrepared(nodes, ring, log) && leader in ring
    ensures var n := nodes[leader].(coordinator := leader); Prepared(n, Log(n), ring) && Log(n) == Log(nodes[leader])
  {
    hide WellSaved, StateChanges, Dense, LastId, NoneFor;
    assert Prepared(nodes[leader], log, ring);
  }

  /** A stuck follower has the elected node's whole log. */
  lemma StuckHasAll(nodes: map<string, Node>, ring: set<string>, leader: string, log: seq<Proposal>, i: string)
    requires AllPrepared(nodes, ring, log) && leader in ring && i in ring && Stuck(nodes, leader, i)
    ensures nodes[i].track.active && i != leader && |Log(nodes[i])| == |Log(nodes[leader])|
  {
    hide WellSaved, StateChanges, Dense, LastId, NoneFor, Log;
    assert Prepared(nodes[i], log, ring) && Prepared(nodes[leader], log, ring);
    HigherIdHasMore(nodes[i], nodes[leader], log);
  }

  lemma SafeIsElectable(nodes: map<string, Node>, ring: set<string>, leader: string, log: seq<Proposal>)
    requires AllPrepared(nodes, ring, log) && Wins(nodes, ring, leader) && Inv(StartTerm(nodes, ring, leader))
    ensures CanElect(nodes, ring, leader)
  {
    hide Inv, AllPrepared, StartTerm, ViewOf, ViewOk, Prepared, SendNewLeader, Log, Stuck;
    var n, w := nodes[leader].(coordinator := leader), StartTerm(nodes, ring, leader);
    LeaderOfStart(nodes, ring, leader);
    ElectedAlone(nodes, ring, leader, log);
    EpochLeft(n, ring);
    BaseOfStart(n, ring);
    forall i | i in ring ensures !Stuck(nodes, leader, i) {
      if Stuck(nodes, leader, i) {
        StuckHasAll(nodes, ring, leader, log, i);
        FollowerOfStart(nodes, ring, leader, i);
        SameLog(nodes[i], w.nodes[i]);
      }
    }
  }

  lemma BaseOfStart(n: Node, ring: set<string>)
    requires SendNewLeader(n, |ring|).count == 0 && Log(SendNewLeader(n, |ring|)) == Log(n)
    ensures ViewOf(SendNewLeader(n, |ring|), |SendNewLeader(n, |ring|).queue|).base == |Log(n)|
  {
    hide Log, SendNewLeader;
  }

  /** Right after an election by the rules the invariant holds exactly if epochs have not run out and
      nobody is stuck in sync mode at the winner's zxid. */
  lemma StartTermSafe(nodes: map<string, Node>, ring: set<string>, leader: string, log: seq<Proposal>)
    requires AllPrepared(nodes, ring, log) && Wins(nodes, ring, leader)
    ensures Inv(StartTerm(nodes, ring, leader)) <==> CanElect(nodes, ring, leader)
  {
    hide Inv, AllPrepared, StartTerm, CanElect;
    if CanElect(nodes, ring, leader) {
      ElectableIsSafe(nodes, ring, leader, log);
    } else if Inv(StartTerm(nodes, ring, leader)) {
      SafeIsElectable(nodes, ring, leader, log);
    }
  }

  lemma ElectableIsSafe(nodes: map<string, Node>, ring: set<string>, leader: string, log: seq<Proposal>)
    requires AllPrepared(nodes, ring, log) && CanElect(nodes, ring, leader)
    ensures Inv(StartTerm(nodes, ring, leader))
  {
    hide SendNewLeader, ViewOf, PeersOf, StartTerm, NewPeers, TermInv, Prepared, Dense;
    NamesOfNewTerm(nodes, ring, leader, log);
    NewPeersOfStart(nodes, ring, leader);
    NewPeersInStep(nodes, ring, leader, log);
    hide AllPrepared, CanElect;
  }
}
