/** Whole runs of the cluster: any number of steps and of leader terms. */
module ClusterRuns {
  import opened Zxid
  import opened Messages
  import opened Channel
  import opened SyncReply
  import opened ProposalLog
  import opened ZabNode
  import opened FollowerSteps
  import opened LeaderSteps
  import opened TermSteps
  import opened Cluster
  import opened ClusterSafety
  import opened NewTerm

  /** A first election among nodes that have just started. */
  ghost predicate JustStarted(nodes: map<string, Node>) {
    |nodes| >= 2 && forall x :: x in nodes ==> nodes[x] == Fresh(x)
  }

  ghost predicate Init(w: World) {
    exists nodes, ring, leader :: JustStarted(nodes) && CanElect(nodes, ring, leader) && w == StartTerm(nodes, ring, leader)
  }

  /** Each action of the sequence is enabled when it is taken. */
  ghost predicate Possible(w: World, acts: seq<Action>)
    requires WellFormed(w)
    decreases |acts|, 0
  {
    acts == [] ||
    var init, last := acts[..|acts| - 1], acts[|acts| - 1];
    Possible(w, init) && Enabled(Run(w, init), last)
  }

  /** The state a run ends in. */
  ghost function Run(w: World, acts: seq<Action>): (w': World)
    requires WellFormed(w) && Possible(w, acts)
    ensures WellFormed(w')
    decreases |acts|, 1
  {
    if acts == [] then w else Apply(Run(w, acts[..|acts| - 1]), acts[|acts| - 1])
  }

  /** Some run leads from `w` to `w'`. */
  ghost predicate Reaches(w: World, w': World) {
    exists acts :: WellFormed(w) && Possible(w, acts) && w' == Run(w, acts)
  }

  ghost predicate Reachable(w: World) {
    exists start, acts :: Init(start) && WellFormed(start) && Possible(start, acts) && w == Run(start, acts)
  }

  lemma InitSafe(w: World)
    requires Init(w)
    ensures Inv(w)
  {
    var nodes, ring, leader :| JustStarted(nodes) && CanElect(nodes, ring, leader) && w == StartTerm(nodes, ring, leader);
    hide Inv, CanElect, StartTerm, Wins;
    CanElectIsRing(nodes, ring, leader);
    NewcomersArePrepared(nodes, ring);
    hide AllPrepared;
    StartTermSafe(nodes, ring, leader, []);
  }

  lemma NewcomersArePrepared(nodes: map<string, Node>, ring: set<string>)
    requires JustStarted(nodes) && ring <= nodes.Keys
    ensures AllPrepared(nodes, ring, [])
  {
    hide Prepared, Dense;
    FreshNames(nodes);
    hide Fresh;
    forall x | x in ring ensures Prepared(nodes[x], [], ring) {
      FreshIsPrepared(x, ring);
    }
  }

  lemma FreshNames(nodes: map<string, Node>)
    requires JustStarted(nodes)
    ensures Dense([]) && forall x :: x in nodes ==> nodes[x].name == x
  {
  }

  lemma FreshIsPrepared(x: string, ring: set<string>)
    ensures Prepared(Fresh(x), [], ring)
  {
    var n := Fresh(x);
    assert Idle(n) && NoneFor(n.outbox, ring);
    NothingSaved(n);
    hide Fresh, Idle, NoneFor;
  }

  lemma NothingSaved(n: Node)
    requires n.saved == [] && n.committed == [] && n.queue == [] && n.epoch == 0 && n.count == 0
    ensures Consistent(n, [])
  {
  }

  lemma CanElectIsRing(nodes: map<string, Node>, ring: set<string>, leader: string)
    requires CanElect(nodes, ring, leader)
    ensures ring <= nodes.Keys && leader in ring && Wins(nodes, ring, leader)
  {
  }

  /** Among nodes that have just started any majority can elect any of its members. */
  lemma FirstElection(nodes: map<string, Node>, ring: set<string>, leader: string)
    requires JustStarted(nodes) && ring <= nodes.Keys && leader in ring && |ring| >= |nodes| / 2 + 1
    ensures CanElect(nodes, ring, leader) && Init(StartTerm(nodes, ring, leader))
  {
    assert CanElect(nodes, ring, leader);
    hide CanElect, StartTerm;
  }

  /** When a leader is gone, its followers can take part in an election. */
  lemma FollowersPrepared(w: World, ring: set<string>, leader: string)
    requires Inv(w) && ring <= w.followers
    ensures AllPrepared(w.nodes, ring, TermView(w).log)
  {
    hide TermInv, ViewOf, PeersOf, InStep;
    var v := TermView(w);
    TermFacts(v, w.nodes[w.leader], w.lag, PeersOf(w), |w.nodes|);
    PeerKeys(w);
    forall x | x in ring ensures Prepared(w.nodes[x], v.log, ring) {
      PeersAre(w, x);
      PreparedPeer(v, PeersOf(w)[x], w.followers, ring);
    }
  }

  lemma PreparedPeer(v: View, p: Peer, names: set<string>, ring: set<string>)
    requires InStep(v, p, names) && ring <= names
    ensures Prepared(p.node, v.log, ring)
  {
  }

  /** An election by the rules among the followers keeps the invariant exactly if it is one of the
      elections of this model. */
  lemma ElectSafe(w: World, ring: set<string>, leader: string)
    requires Inv(w) && ring <= w.followers && Wins(w.nodes, ring, leader)
    ensures Inv(StartTerm(w.nodes, ring, leader)) <==> CanElect(w.nodes, ring, leader)
  {
    FollowersPrepared(w, ring, leader);
    hide Inv, CanElect, AllPrepared;
    StartTermSafe(w.nodes, ring, leader, TermView(w).log);
  }

  lemma SubmitSafe(w: World, i: string, num: int, content: seq<byte>)
    requires WellFormed(w) && i in w.Ring()
    requires Inv(w)
    ensures Inv(Submitted(w, i, num, content)) && Continues(w, Submitted(w, i, num, content))
  {
    hide Inv, Continues, Submitted, WellFormed;
    if i == w.leader { LeaderSubmits(w, num, content); } else { FollowerSubmits(w, i, num, content); }
  }

  lemma SendNextSafe(w: World, i: string)
    requires WellFormed(w) && i in w.Ring() && w.nodes[i].outbox != []
    requires Inv(w)
    ensures Inv(Sent(w, i)) && Continues(w, Sent(w, i))
  {
    hide Inv, Continues, Sent, WellFormed;
    if i == w.leader { LeaderSendsNext(w); } else { FollowerSendsNext(w, i); }
  }

  /** What the code does: as `Enabled`, but an election asks only for a majority and for the highest
      zxid. */
  ghost predicate Taken(w: World, a: Action)
    requires WellFormed(w)
  {
    if a.Elect? then a.ring <= w.followers && Wins(w.nodes, a.ring, a.leader) else Enabled(w, a)
  }

  /** The state after it. */
  ghost function After(w: World, a: Action): (w': World)
    requires WellFormed(w) && Taken(w, a)
    ensures WellFormed(w')
  {
    if a.Elect? then StartTerm(w.nodes, a.ring, a.leader) else Apply(w, a)
  }

  /** Every step the code takes keeps the invariant exactly if it is a step of this model; within a
      term it only extends what there is. */
  lemma StepSafe(w: World, a: Action)
    requires WellFormed(w) && Taken(w, a)
    requires Inv(w)
    ensures Inv(After(w, a)) <==> Enabled(w, a)
    ensures !a.Elect? ==> Continues(w, After(w, a))
    ensures Enabled(w, a) ==> After(w, a) == Apply(w, a)
  {
    hide Inv, Continues, CanElect, Wins, MayPropose, WellFormed, Sent, Submitted, DeliveredUp, DeliveredDown, ProcessedOwn, StartTerm;
    match a
    case Submit(i, num, content) => SubmitSafe(w, i, num, content);
    case SendNext(i) => SendNextSafe(w, i);
    case DeliverDown(i) => DeliverDownSafe(w, i);
    case DeliverUp(i, v) => DeliverUpSafe(w, i, v);
    case ProcessOwn(i, v) => ProcessOwnSafe(w, i, v);
    case Elect(ring, leader) => ElectSafe(w, ring, leader);
  }

  lemma EnabledIsTaken(w: World, a: Action)
    requires WellFormed(w) && Enabled(w, a)
    ensures Taken(w, a)
  {
    hide WellFormed, StartTerm, MayPropose;
  }

  /** So every step of this model keeps it. */
  lemma EnabledSafe(w: World, a: Action)
    requires WellFormed(w) && Enabled(w, a) && Inv(w)
    ensures Inv(Apply(w, a)) && (!a.Elect? ==> Continues(w, Apply(w, a)))
  {
    hide *;
    EnabledIsTaken(w, a);
    StepSafe(w, a);
  }

  /** Every state a cluster reaches satisfies the invariant. */
  lemma {:induction false} RunSafe(w: World, acts: seq<Action>)
    requires Inv(w) && WellFormed(w) && Possible(w, acts)
    ensures Inv(Run(w, acts))
    decreases |acts|
  {
    hide Inv, WellFormed, Enabled, Apply;
    if acts != [] {
      var init, last := acts[..|acts| - 1], acts[|acts| - 1];
      RunSafe(w, init);
      EnabledSafe(Run(w, init), last);
    }
  }

  // ---- Runs of the code ----

  ghost predicate AllTaken(w: World, acts: seq<Action>)
    requires WellFormed(w)
    decreases |acts|, 0
  {
    acts == [] ||
    var init, last := acts[..|acts| - 1], acts[|acts| - 1];
    AllTaken(w, init) && Taken(AfterAll(w, init), last)
  }

  ghost function AfterAll(w: World, acts: seq<Action>): (w': World)
    requires WellFormed(w) && AllTaken(w, acts)
    ensures WellFormed(w')
    decreases |acts|, 1
  {
    if acts == [] then w else After(AfterAll(w, acts[..|acts| - 1]), acts[|acts| - 1])
  }

  /** Every state on the way satisfies the invariant. */
  ghost predicate AlwaysInv(w: World, acts: seq<Action>)
    requires WellFormed(w) && AllTaken(w, acts)
    decreases |acts|
  {
    Inv(AfterAll(w, acts)) && (acts == [] || AlwaysInv(w, acts[..|acts| - 1]))
  }

  /** A run of the code satisfies the invariant throughout exactly if it is a run of this model: only
      elections that leave somebody stuck, or that epochs do not suffice for, break it. */
  lemma {:induction false} RunSafeExactly(w: World, acts: seq<Action>)
    requires WellFormed(w) && Inv(w) && AllTaken(w, acts)
    ensures AlwaysInv(w, acts) <==> Possible(w, acts)
    ensures Possible(w, acts) ==> AfterAll(w, acts) == Run(w, acts)
    decreases |acts|
  {
    hide Inv, WellFormed, Enabled, Apply, Taken, After;
    if acts != [] {
      var init, last := acts[..|acts| - 1], acts[|acts| - 1];
      RunSafeExactly(w, init);
      if AlwaysInv(w, init) {
        AlwaysNow(w, init);
        StepSafe(AfterAll(w, init), last);
      }
    }
  }

  lemma AlwaysNow(w: World, acts: seq<Action>)
    requires WellFormed(w) && AllTaken(w, acts) && AlwaysInv(w, acts)
    ensures Inv(AfterAll(w, acts))
  {
    hide Inv, WellFormed, Taken, After;
  }

  lemma ReachableSafe(w: World)
    requires Reachable(w)
    ensures Inv(w) && WellFormed(w)
  {
    hide Inv, Init, Possible, Run, WellFormed;
    var start, acts :| Init(start) && WellFormed(start) && Possible(start, acts) && w == Run(start, acts);
    InitSafe(start);
    RunSafe(start, acts);
  }

  lemma ReachableStep(w: World, a: Action)
    requires Reachable(w) && WellFormed(w) && Enabled(w, a)
    ensures Reachable(Apply(w, a))
  {
    hide Init, WellFormed, Enabled, Apply;
    var start, acts :| Init(start) && WellFormed(start) && Possible(start, acts) && w == Run(start, acts);
    var longer := acts + [a];
    assert longer[..|longer| - 1] == acts;
    assert Possible(start, longer) && Run(start, longer) == Apply(w, a);
  }

  lemma OneStepReaches(w: World, a: Action)
    requires WellFormed(w) && Enabled(w, a)
    ensures Reaches(w, Apply(w, a))
  {
    hide WellFormed, Enabled, Apply;
    assert [a][..0] == [];
    assert Possible(w, []) && Run(w, []) == w;
    assert Possible(w, [a]) && Run(w, [a]) == Apply(w, a);
  }

  lemma ReachesStep(w: World, w1: World, a: Action)
    requires Reaches(w, w1) && WellFormed(w1) && Enabled(w1, a)
    ensures Reaches(w, Apply(w1, a))
  {
    hide WellFormed, Enabled, Apply;
    var acts :| WellFormed(w) && Possible(w, acts) && w1 == Run(w, acts);
    var longer := acts + [a];
    assert longer[..|longer| - 1] == acts;
    assert Possible(w, longer) && Run(w, longer) == Apply(w1, a);
  }

  lemma InitIsReachable(w: World)
    requires Init(w) && WellFormed(w)
    ensures Reachable(w)
  {
    hide Init, WellFormed;
    assert Possible(w, []) && w == Run(w, []);
  }
}
