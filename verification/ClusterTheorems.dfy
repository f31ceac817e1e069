/** What the protocol promises, for every run from the first election on. */
module ClusterTheorems {
  import opened Zxid
  import opened Collections
  import opened Messages
  import opened Channel
  import opened SyncReply
  import opened ProposalLog
  import opened ZabNode
  import opened FollowerSteps
  import opened LeaderSteps
  import opened TermSteps
  import opened Cluster
  import opened ClusterSafety
  import opened NewTerm
  import opened ClusterRuns

  /** The leader's proposals, of this term and before. */
  function LeaderLogOf(w: World): seq<Proposal>
    requires w.leader in w.nodes
  {
    Log(w.nodes[w.leader])
  }

  /** What the nodes of a term may have committed: the log before the term and the proposals that
      reached a quorum; nothing new before the term is open. */
  function Decided(w: World): seq<Proposal>
    requires w.leader in w.nodes
  {
    var v := TermView(w);
    if v.open && 0 <= v.base + v.fired <= |v.log| then v.log[..v.base + v.fired] else []
  }

  /** The leader's part of the invariant, in terms of the leader itself. */
  ghost predicate LeaderStands(w: World) {
    w.leader in w.nodes &&
    var ld, v := w.nodes[w.leader], TermView(w);
    && !ld.stopped && ViewOk(v) && ld.committed + ld.queue == v.log && v.log == LeaderLogOf(w)
    && v.open == ld.processing && v.base == |v.log| - ld.count && w.lag <= v.base
    && |ld.committed| == v.base + v.fired - w.lag && (v.open ==> ld.holding == [])
  }

  lemma InvLeader(w: World)
    requires Inv(w)
    ensures LeaderStands(w)
  {
    hide PeersOk, AckedBy, UnsettledPeers, Log, PeersOf;
    var v, ld, peers := TermView(w), w.nodes[w.leader], PeersOf(w);
    TermFacts(v, ld, w.lag, peers, |w.nodes|) by { assert TermInv(v, ld, w.lag, peers, |w.nodes|); }
    OpenIsProcessing(v, ld, w.lag, AckedBy(v, peers), |UnsettledPeers(v, peers)|, |w.nodes|);
  }

  /** A follower's standing relative to the leader. */
  ghost predicate FollowerStands(w: World, i: string) {
    i in w.nodes && w.leader in w.nodes &&
    var f, v := w.nodes[i], TermView(w);
    && !f.stopped && Consistent(f, v.log)
    && (v.open ==> v.base <= |Log(f)| && v.base <= |f.committed| <= v.base + v.fired)
  }

  lemma InvFollower(w: World, i: string)
    requires Inv(w) && i in w.followers
    ensures FollowerStands(w, i)
  {
    hide TermInv, ViewOf, PeersOf, NoneFor, FromFollower, Consistent, NeverOutruns, Plain, Log, Dense;
    var v := TermView(w);
    TermFacts(v, w.nodes[w.leader], w.lag, PeersOf(w), |w.nodes|);
    PeerKeys(w);
    PeersAre(w, i);
    assert InStep(v, PeersOf(w)[i], PeersOf(w).Keys);
  }

  lemma Standing(w: World)
    requires Reachable(w)
    ensures WellFormed(w) && LeaderStands(w) && (forall i :: i in w.followers ==> FollowerStands(w, i))
  {
    ReachableSafe(w);
    hide Inv, WellFormed, LeaderStands, FollowerStands, Reachable;
    InvLeader(w);
    forall i | i in w.followers ensures FollowerStands(w, i) { InvFollower(w, i); }
  }

  /** A running node that has committed a prefix of the leader's proposals, and, once the term is
      open, no more than what is decided. */
  ghost predicate InAgreement(w: World, i: string) {
    && w.leader in w.nodes && i in w.nodes
    && !w.nodes[i].stopped
    && w.nodes[i].committed <= Log(w.nodes[i]) <= LeaderLogOf(w)
    && (TermView(w).open ==> w.nodes[i].committed <= Decided(w))
  }

  lemma ViewBounds(v: View)
    requires ViewOk(v)
    ensures 0 <= v.base + v.fired <= |v.log|
  {
  }

  lemma CommittedWithin(committed: seq<Proposal>, queue: seq<Proposal>, log: seq<Proposal>, decided: nat)
    requires committed + queue <= log && decided <= |log|
    ensures committed <= committed + queue && committed <= log
    ensures |committed| <= decided ==> committed <= log[..decided]
  {
    assert committed == (committed + queue)[..|committed|];
  }

  lemma PrefixesComparable(a: seq<Proposal>, b: seq<Proposal>, c: seq<Proposal>)
    requires a <= c && b <= c
    ensures a <= b || b <= a
  {
    assert a == c[..|a|] && b == c[..|b|];
  }

  // ---- Safety ----

  /** In every reachable state every node of the term has committed a prefix of the leader's
      proposals, although COMMIT names none, and no COMMIT ever found an empty queue. */
  lemma CommittedEverywhere(w: World, i: string)
    requires Reachable(w) && i in w.Ring()
    ensures InAgreement(w, i)
  {
    Standing(w);
    hide Reachable, WellFormed, LeaderStands, FollowerStands;
    if i == w.leader { LeaderAgrees(w); } else { FollowerAgrees(w, i); }
  }

  lemma LeaderAgrees(w: World)
    requires LeaderStands(w)
    ensures InAgreement(w, w.leader)
  {
    hide ViewOf, Log, ViewOk;
    var n, v := w.nodes[w.leader], TermView(w);
    ViewBounds(v);
    CommittedWithin(n.committed, n.queue, v.log, v.base + v.fired);
  }

  lemma FollowerAgrees(w: World, i: string)
    requires LeaderStands(w) && FollowerStands(w, i)
    ensures InAgreement(w, i)
  {
    hide ViewOf, Log, ViewOk, WellSaved, LastId;
    var n, v := w.nodes[i], TermView(w);
    ViewBounds(v);
    CommittedWithin(n.committed, n.queue, v.log, v.base + v.fired);
  }

  /** No two nodes of the term disagree. */
  lemma Agreement(w: World, i: string, j: string)
    requires Reachable(w) && i in w.Ring() && j in w.Ring()
    ensures i in w.nodes && j in w.nodes
    ensures w.nodes[i].committed <= w.nodes[j].committed || w.nodes[j].committed <= w.nodes[i].committed
  {
    hide Log, Reachable;
    CommittedEverywhere(w, i);
    CommittedEverywhere(w, j);
    PrefixesComparable(w.nodes[i].committed, w.nodes[j].committed, LeaderLogOf(w));
  }

  // ---- Durability across terms ----

  /** The nodes, dead or alive, whose log starts with `d`. */
  ghost function Holders(nodes: map<string, Node>, d: seq<Proposal>): set<string> {
    set x | x in nodes && d <= Log(nodes[x])
  }

  ghost predicate Durable(w: World, d: seq<Proposal>) {
    |Holders(w.nodes, d)| >= |w.nodes| / 2 + 1
  }

  lemma MajoritiesMeet(a: set<string>, b: set<string>, all: set<string>) returns (x: string)
    requires a <= all && b <= all && |a| >= |all| / 2 + 1 && |b| >= |all| / 2 + 1
    ensures x in a && x in b
  {
    if a * b == {} {
      SubsetSize(a + b, all);
    }
    x :| x in a * b;
  }

  /** What a majority holds, the leader's log starts with. */
  lemma LeaderHasDurable(w: World, d: seq<Proposal>)
    requires Reachable(w) && Durable(w, d)
    ensures w.leader in w.nodes && d <= LeaderLogOf(w)
  {
    RingIsMajority(w);
    hide Reachable, ViewOf, Log;
    var x := MajoritiesMeet(Holders(w.nodes, d), w.Ring(), w.nodes.Keys);
    CommittedEverywhere(w, x);
  }

  lemma RingIsMajority(w: World)
    requires Reachable(w)
    ensures w.Ring() <= w.nodes.Keys && |w.nodes.Keys| == |w.nodes| && |w.Ring()| >= |w.nodes| / 2 + 1
  {
    hide Inv, Reachable;
    ReachableSafe(w);
    InvMajority(w);
  }

  lemma InvMajority(w: World)
    requires Inv(w)
    ensures w.Ring() <= w.nodes.Keys && |w.nodes.Keys| == |w.nodes| && |w.Ring()| >= |w.nodes| / 2 + 1
  {
    hide TermInv;
  }

  /** What the leader has counted is in the followers' logs. */
  ghost predicate Backed(w: World, i: string, k: int) {
    && i in w.nodes && w.leader in w.nodes
    && Log(w.nodes[i]) <= LeaderLogOf(w) && TermView(w).base + k <= |Log(w.nodes[i])|
  }

  lemma AckerHolds(w: World, i: string)
    requires Inv(w) && i in w.followers && TermView(w).open
    ensures i in PeersOf(w) && Backed(w, i, PeerAcked(TermView(w), PeersOf(w)[i]))
  {
    InvWellFormed(w);
    PeersAre(w, i);
    InvFollower(w, i);
    InvLeader(w);
    hide Inv, TermInv, ViewOf, Log;
  }

  /** A quorum of followers holds the latest committed proposal. */
  lemma QuorumBehindFired(w: World) returns (quorum: set<string>)
    requires Inv(w) && TermView(w).open && TermView(w).fired > 0
    ensures quorum <= w.followers && |quorum| >= |w.nodes| / 2
    ensures forall i :: i in quorum ==> Backed(w, i, TermView(w).fired)
  {
    quorum := QuorumOfAckers(w);
    hide Inv, ViewOf, PeerAcked, Backed;
    forall i | i in quorum ensures Backed(w, i, TermView(w).fired) {
      AckerHolds(w, i);
      BackedLess(w, i, PeerAcked(TermView(w), PeersOf(w)[i]), TermView(w).fired);
    }
  }

  lemma BackedLess(w: World, i: string, k: int, j: int)
    requires Backed(w, i, k) && j <= k
    ensures Backed(w, i, j)
  {
  }

  lemma QuorumOfAckers(w: World) returns (quorum: set<string>)
    requires Inv(w) && TermView(w).open && TermView(w).fired > 0
    ensures WellFormed(w) && quorum <= w.followers && |quorum| >= |w.nodes| / 2
    ensures forall i :: i in quorum ==> i in PeersOf(w) && PeerAcked(TermView(w), PeersOf(w)[i]) >= TermView(w).fired
  {
    hide PeersOk, UnsettledPeers, PeerAcked, Log, Dense;
    var v, ld, peers := TermView(w), w.nodes[w.leader], PeersOf(w);
    PeerKeys(w);
    assert Leader(v, ld, w.lag, AckedBy(v, peers), |UnsettledPeers(v, peers)|, |w.nodes|);
    assert Counted(v, ld, AckedBy(v, peers), |w.nodes|);
    quorum := Ackers(AckedBy(v, peers), v.fired);
  }

  /** What is decided, a majority of all nodes holds. */
  lemma DecidedIsDurable(w: World)
    requires Reachable(w)
    ensures w.leader in w.nodes && Durable(w, Decided(w))
  {
    var quorum := QuorumForDecided(w);
    Standing(w);
    hide Reachable, ViewOf, Log, FollowerStands, LeaderStands;
    SubsetSize(quorum, Holders(w.nodes, Decided(w)));
  }

  ghost predicate HoldDecided(w: World, quorum: set<string>) {
    && w.leader in w.nodes && quorum <= w.nodes.Keys && |quorum| >= |w.nodes| / 2 + 1
    && forall i :: i in quorum ==> i in w.nodes && Decided(w) <= Log(w.nodes[i])
  }

  lemma QuorumForDecided(w: World) returns (quorum: set<string>)
    requires Reachable(w)
    ensures HoldDecided(w, quorum)
  {
    hide Reachable, ViewOf, Log, FollowerStands, LeaderStands, Decided, Backed;
    Standing(w);
    RingIsMajority(w);
    LeaderHoldsDecided(w);
    quorum := w.followers;
    if TermView(w).open {
      quorum := BackingQuorum(w);
      forall i | i in quorum ensures Decided(w) <= Log(w.nodes[i]) { ReachesDecided(w, i); }
    } else {
      NothingDecided(w);
    }
    assert w.leader !in quorum;
    quorum := quorum + {w.leader};
  }

  lemma LeaderHoldsDecided(w: World)
    requires w.leader in w.nodes
    ensures Decided(w) <= LeaderLogOf(w)
  {
    hide Log;
  }

  lemma NothingDecided(w: World)
    requires w.leader in w.nodes && !TermView(w).open
    ensures Decided(w) == []
  {
  }

  lemma BackingQuorum(w: World) returns (quorum: set<string>)
    requires Reachable(w) && w.leader in w.nodes && TermView(w).open
    ensures quorum <= w.followers && |quorum| >= |w.nodes| / 2
    ensures forall i :: i in quorum ==> Backed(w, i, TermView(w).fired)
  {
    Standing(w);
    RingIsMajority(w);
    hide ViewOf, Log, FollowerStands, LeaderStands, Backed, Reachable;
    if TermView(w).fired > 0 {
      ReachableSafe(w);
      hide Inv;
      quorum := QuorumBehindFired(w);
    } else {
      quorum := w.followers;
      forall i | i in quorum ensures Backed(w, i, TermView(w).fired) { BackedByAll(w, i); }
    }
  }

  lemma BackedByAll(w: World, i: string)
    requires FollowerStands(w, i) && LeaderStands(w) && TermView(w).open && TermView(w).fired <= 0
    ensures Backed(w, i, TermView(w).fired)
  {
    hide WellSaved, LastId, ViewOf, Log;
  }

  lemma ReachesDecided(w: World, i: string)
    requires w.leader in w.nodes && Backed(w, i, TermView(w).fired) && TermView(w).open
    ensures Decided(w) <= Log(w.nodes[i])
  {
    hide Log;
  }

  // ---- An election changes no log ----

  lemma ElectedIsIdle(w: World, ring: set<string>, leader: string)
    requires Reachable(w) && ring <= w.followers && leader in ring
    ensures leader in w.nodes && !w.nodes[leader].syncing && w.nodes[leader].holding == [] && w.leader in w.nodes
    ensures w.nodes[leader].Id() == 0 ==> w.nodes[leader].count == 0
  {
    Standing(w);
    ReachableSafe(w);
    hide Reachable, Inv, Consistent, NoneFor, LeaderStands, FollowerStands, TermView, AllPrepared;
    FollowersPrepared(w, ring, leader);
    ElectedPrepared(w.nodes, ring, TermView(w).log, leader);
  }

  lemma ElectedPrepared(nodes: map<string, Node>, ring: set<string>, log: seq<Proposal>, leader: string)
    requires AllPrepared(nodes, ring, log) && leader in ring
    ensures leader in nodes && !nodes[leader].syncing && nodes[leader].holding == []
  {
    hide Consistent, NoneFor, Dense;
    assert Prepared(nodes[leader], log, ring);
  }

  lemma SameLogs(nodes: map<string, Node>, ring: set<string>, leader: string)
    requires ring <= nodes.Keys && leader in ring && !nodes[leader].syncing
    ensures var w := StartTerm(nodes, ring, leader);
            w.nodes.Keys == nodes.Keys && forall x :: x in nodes ==> Log(nodes[x]) == Log(w.nodes[x])
  {
    hide Log;
    var w := StartTerm(nodes, ring, leader);
    assert w.nodes.Keys == nodes.Keys;
    forall x | x in nodes ensures Log(nodes[x]) == Log(w.nodes[x]) {
      if x == leader {
        AnnouncementIsNoStateChange(nodes[x].(coordinator := leader), |ring|);
        SameLog(nodes[x], nodes[x].(coordinator := leader));
      } else {
        SameLog(nodes[x], w.nodes[x]);
      }
    }
  }

  lemma AnnouncementIsNoStateChange(n: Node, addresses: nat)
    requires !n.syncing
    ensures Log(SendNewLeader(n, addresses)) == Log(n)
  {
    var m := SendNewLeader(n, addresses);
    StateChangesAppend(n.saved, m.currentSync);
    assert Log(n) + [] == Log(n);
  }

  /** A term starts with no proposals of its own. */
  lemma NewTermCount(nodes: map<string, Node>, ring: set<string>, leader: string)
    requires ring <= nodes.Keys && leader in ring && !nodes[leader].syncing
    ensures var w := StartTerm(nodes, ring, leader);
            w.leader in w.nodes && w.nodes[w.leader].count == 0
  {
  }
}
