/** The ring election meets what the broadcast protocol expects of it: whoever is elected after the
    leader is gone holds everything that was decided. */
module ElectionSafety {
  import opened Zxid
  import opened Messages
  import opened SyncReply
  import opened ZabNode
  import opened FollowerSteps
  import opened LeaderSteps
  import opened Cluster
  import opened ClusterSafety
  import opened NewTerm
  import opened ClusterRuns
  import opened ClusterTheorems
  import opened Durability
  import Election

  /** What the nodes report during a discovery. */
  function Ids(nodes: map<string, Node>): string -> uint32 {
    (x: string) => if x in nodes then nodes[x].Id() else 0
  }

  /** The ring lists every node of the cluster once. */
  ghost predicate FullRing(ring: seq<string>, nodes: map<string, Node>) {
    Election.NoRepeats(ring) && forall x :: x in ring <==> x in nodes
  }

  lemma FullRingSize(ring: seq<string>, nodes: map<string, Node>)
    requires FullRing(ring, nodes)
    ensures |ring| == |nodes|
  {
    Election.Cardinality(ring, nodes.Keys);
    assert |nodes.Keys| == |nodes|;
  }

  /** The elected node wins, and may lead if epochs have not run out and no follower is stuck in
      sync mode at its zxid. */
  lemma ElectedWins(nodes: map<string, Node>, ring: seq<string>, live: set<string>, s: string, x: string)
    requires FullRing(ring, nodes) && s in live && live <= nodes.Keys
    requires |live| >= 2 && |live| >= |ring| / 2 + 1 && Election.IsElected(live, Ids(nodes), x)
    ensures Wins(nodes, live, x)
    ensures CanElect(nodes, live, x) <==> nodes[x].epoch < 0xFFFF && forall i <- live :: !Stuck(nodes, x, i)
  {
    FullRingSize(ring, nodes);
    forall i | i in live ensures nodes[i].Id() <= nodes[x].Id() {
      assert !Election.Beats(Ids(nodes)(i), i, Ids(nodes)(x), x);
    }
  }

  /** When the leader is gone and a discovery among its followers completes with a majority of all
      nodes, the elected node's log contains everything that few followers lacked, whichever term it
      is from, and its zxid is at least that of each such proposal. */
  lemma ElectedHas(w: World, ring: seq<string>, live: set<string>, s: string, x: string, d: seq<Proposal>)
    requires Reachable(w) && FullRing(ring, w.nodes) && s in live && live <= w.followers
    requires |live| >= |ring| / 2 + 1 && Election.IsElected(live, Ids(w.nodes), x)
    requires FewLack(w, d)
    ensures x in w.nodes && d <= Log(w.nodes[x]) && LastId(d) <= w.nodes[x].Id()
  {
    FullRingSize(ring, w.nodes);
    Standing(w);
    hide Reachable, Log, Election.NoRepeats, LeaderStands, FollowerStands;
    assert Wins(w.nodes, live, x) by {
      forall i | i in live ensures w.nodes[i].Id() <= w.nodes[x].Id() {
        assert !Election.Beats(Ids(w.nodes)(i), i, Ids(w.nodes)(x), x);
      }
    }
    WinnerHas(w, live, x, d);
  }

  /** Leader completeness of the election: the elected node has everything decided in this or any
      earlier term. */
  lemma ElectedHasDecided(w0: World, w: World, ring: seq<string>, live: set<string>, s: string, x: string)
    requires Reachable(w0) && Reaches(w0, w) && FullRing(ring, w.nodes) && s in live && live <= w.followers
    requires |live| >= |ring| / 2 + 1 && Election.IsElected(live, Ids(w.nodes), x)
    ensures w0.leader in w0.nodes && x in w.nodes && Decided(w0) <= Log(w.nodes[x])
  {
    DecidedFewLack(w0);
    hide Reachable, Reaches, Log, Election.NoRepeats, FewLack;
    StaysKept(w0, w, Decided(w0));
    ElectedHas(w, ring, live, s, x, Decided(w0));
  }
}
