/** Which proposals survive the crash of their leader: exactly those that fewer than a majority of
    its followers lack. */
module Durability {
  import opened Zxid
  import opened Collections
  import opened Messages
  import opened Channel
  import opened SyncReply
  import opened ProposalLog
  import opened ZabNode
  import opened FollowerSteps
  import opened LeaderSteps
  import opened TermSteps
  import opened Cluster
  import opened ClusterSafety
  import opened NewTerm
  import opened ClusterRuns
  import opened ClusterTheorems

  /** The followers that can still be elected and do not have the proposals of `d`. */
  ghost function Lacking(w: World, d: seq<Proposal>): set<string> {
    set i | i in w.followers && i in w.nodes && !(d <= Log(w.nodes[i]))
  }

  /** The leader has `d`, and too few followers lack it to elect one of them. */
  ghost predicate FewLack(w: World, d: seq<Proposal>) {
    w.leader in w.nodes && d <= LeaderLogOf(w) && |Lacking(w, d)| <= |w.nodes| / 2
  }

  // ---- It survives every step ----

  /** Within what the current term inherited or decided. */
  ghost predicate Bounded(w: World, d: seq<Proposal>) {
    w.leader in w.nodes && |d| <= TermView(w).base + TermView(w).fired
  }

  lemma ContinuesKeeps(w: World, w': World, d: seq<Proposal>)
    requires Continues(w, w') && FewLack(w, d)
    ensures FewLack(w', d) && (Bounded(w, d) ==> Bounded(w', d))
  {
    hide Log, ViewOf;
    LogOfView(w, w');
    forall i | i in Lacking(w', d) ensures i in Lacking(w, d) {
      assert Log(w.nodes[i]) <= Log(w'.nodes[i]);
    }
    SubsetSize(Lacking(w', d), Lacking(w, d));
    assert |w.nodes.Keys| == |w.nodes| && |w'.nodes.Keys| == |w'.nodes|;
    assert d <= Log(w.nodes[w.leader]) <= Log(w'.nodes[w'.leader]);
  }

  /** Whoever wins an election among the followers has what few of them lack. */
  lemma WinnerHas(w: World, ring: set<string>, x: string, d: seq<Proposal>)
    requires Reachable(w) && ring <= w.followers && Wins(w.nodes, ring, x) && FewLack(w, d)
    ensures x in w.nodes && d <= Log(w.nodes[x]) && LastId(d) <= w.nodes[x].Id()
  {
    hide Reachable, Log;
    var j :| j in ring && j !in Lacking(w, d) by { SomeoneHas(ring, Lacking(w, d), |w.nodes|); }
    FollowersShareLog(w, j);
    FollowersShareLog(w, x);
    LaterHolds(TermView(w).log, w.nodes[j], w.nodes[x], d);
  }

  lemma SomeoneHas(ring: set<string>, lacking: set<string>, systems: nat)
    requires |ring| >= systems / 2 + 1 && |lacking| <= systems / 2
    ensures exists j :: j in ring && j !in lacking
  {
    if ring <= lacking { SubsetSize(ring, lacking); }
  }

  lemma FollowersShareLog(w: World, i: string)
    requires Reachable(w) && i in w.followers
    ensures i in w.nodes && w.leader in w.nodes
    ensures Consistent(w.nodes[i], TermView(w).log) && Dense(TermView(w).log)
  {
    hide Reachable, Log, TermView, LeaderStands, WellFormed;
    Standing(w);
    LogIsDense(w);
    assert FollowerStands(w, i);
  }

  lemma LogIsDense(w: World)
    requires LeaderStands(w)
    ensures w.leader in w.nodes && Dense(TermView(w).log)
  {
  }

  lemma LaterHolds(log: seq<Proposal>, n: Node, m: Node, d: seq<Proposal>)
    requires Dense(log) && Consistent(n, log) && Consistent(m, log) && n.Id() <= m.Id() && d <= Log(n)
    ensures d <= Log(m) && LastId(d) <= m.Id()
  {
    HigherIdHasMore(n, m, log);
    hide WellSaved, Dense, Log, LastId;
    assert d == Log(m)[..|d|] && Log(m)[..|Log(m)|] == Log(m);
    LastIdOrder(Log(m), |Log(m)|, |d|);
  }

  lemma FewerLack(w: World, w': World, d: seq<Proposal>)
    requires w'.followers <= w.followers && w'.nodes.Keys == w.nodes.Keys
    requires forall x :: x in w.nodes ==> Log(w'.nodes[x]) == Log(w.nodes[x])
    ensures |Lacking(w', d)| <= |Lacking(w, d)| && |w'.nodes| == |w.nodes|
  {
    hide Log;
    SubsetSize(Lacking(w', d), Lacking(w, d));
    assert |w.nodes.Keys| == |w.nodes| && |w'.nodes.Keys| == |w'.nodes|;
  }

  lemma ElectWins(w: World, ring: set<string>, x: string)
    requires WellFormed(w) && Enabled(w, Elect(ring, x))
    ensures ring <= w.followers && Wins(w.nodes, ring, x) && x in ring && ring <= w.nodes.Keys
    ensures Apply(w, Elect(ring, x)) == StartTerm(w.nodes, ring, x)
  {
    hide StartTerm;
  }

  /** What an election leaves of a sequence: the followers of the new term are among the old ones,
      and no log changes. */
  lemma ElectionKeeps(w: World, ring: set<string>, x: string, d: seq<Proposal>)
    requires WellFormed(w) && Enabled(w, Elect(ring, x))
    requires Reachable(w) && FewLack(w, d)
    ensures FewLack(Apply(w, Elect(ring, x)), d) && Bounded(Apply(w, Elect(ring, x)), d)
  {
    hide Reachable, StartTerm, Log, Wins, Lacking, Bounded, WellFormed, Enabled, Apply;
    ElectWins(w, ring, x);
    var w' := StartTerm(w.nodes, ring, x);
    WinnerHas(w, ring, x, d);
    ReachableStep(w, Elect(ring, x));
    ElectedIsIdle(w, ring, x);
    SameLogs(w.nodes, ring, x);
    NewTermCount(w.nodes, ring, x);
    NewTermShape(w.nodes, ring, x);
    FewerLack(w, w', d);
    NewBase(w', d);
  }

  lemma NewTermShape(nodes: map<string, Node>, ring: set<string>, x: string)
    requires ring <= nodes.Keys && x in ring
    ensures var w := StartTerm(nodes, ring, x); w.leader == x && w.followers == ring - {x}
  {
  }

  /** A leader without proposals of its own has inherited its whole log. */
  lemma NewBase(w: World, d: seq<Proposal>)
    requires Reachable(w) && FewLack(w, d) && w.nodes[w.leader].count == 0
    ensures Bounded(w, d)
  {
    Standing(w);
    hide Reachable, Log;
  }

  lemma StepKeeps(w: World, a: Action, d: seq<Proposal>)
    requires Reachable(w) && WellFormed(w) && Enabled(w, a) && FewLack(w, d)
    ensures FewLack(Apply(w, a), d) && (Bounded(w, d) ==> Bounded(Apply(w, a), d))
  {
    hide Reachable, FewLack, Bounded, WellFormed, Enabled, Apply;
    if a.Elect? {
      ElectionKeeps(w, a.ring, a.leader, d);
    } else {
      ReachableSafe(w);
      EnabledSafe(w, a);
      ContinuesKeeps(w, Apply(w, a), d);
    }
  }

  lemma {:induction false} RunKeeps(w: World, acts: seq<Action>, d: seq<Proposal>)
    requires Reachable(w) && WellFormed(w) && Possible(w, acts) && FewLack(w, d)
    ensures var w' := Run(w, acts); Reachable(w') && FewLack(w', d) && (Bounded(w, d) ==> Bounded(w', d))
    decreases |acts|
  {
    hide Reachable, FewLack, Bounded, WellFormed, Enabled, Apply;
    if acts != [] {
      var init, last := acts[..|acts| - 1], acts[|acts| - 1];
      RunKeeps(w, init, d);
      ReachableStep(Run(w, init), last);
      StepKeeps(Run(w, init), last, d);
    }
  }

  lemma StaysKept(w: World, w': World, d: seq<Proposal>)
    requires Reachable(w) && Reaches(w, w') && FewLack(w, d)
    ensures Reachable(w') && FewLack(w', d) && (Bounded(w, d) ==> Bounded(w', d))
  {
    hide Reachable, Run, Possible, FewLack, Bounded, WellFormed;
    var acts :| WellFormed(w) && Possible(w, acts) && w' == Run(w, acts);
    RunKeeps(w, acts, d);
  }

  // ---- And only that does ----

  lemma {:induction false} SomeoneIsFirst(nodes: map<string, Node>, ring: set<string>) returns (x: string)
    requires ring != {} && ring <= nodes.Keys
    ensures x in ring && forall i :: i in ring ==> nodes[i].Id() <= nodes[x].Id()
    decreases ring
  {
    x :| x in ring;
    if ring != {x} {
      var y := SomeoneIsFirst(nodes, ring - {x});
      assert forall i :: i in ring ==> i == x || i in ring - {x};
      if nodes[x].Id() < nodes[y].Id() { x := y; }
    }
  }

  /** Every winner among the followers has `d` exactly if few of them lack it. */
  lemma FewLackExactly(w: World, d: seq<Proposal>)
    requires Reachable(w) && w.leader in w.nodes && d <= LeaderLogOf(w)
    ensures FewLack(w, d) <==> WinnersHave(w, d)
  {
    hide Reachable, Log;
    if FewLack(w, d) {
      forall ring, x | ring <= w.followers && Wins(w.nodes, ring, x) ensures d <= Log(w.nodes[x]) {
        WinnerHas(w, ring, x, d);
      }
    } else {
      hide LeaderStands, FollowerStands;
      Standing(w);
      var x := SomeoneIsFirst(w.nodes, Lacking(w, d));
      assert Wins(w.nodes, Lacking(w, d), x);
    }
  }

  /** No later leader misses anything of `d`. */
  ghost predicate LeadersKeep(w: World, d: seq<Proposal>) {
    forall w' :: Reaches(w, w') ==> LeaderHas(w', d)
  }

  ghost predicate LeaderHas(w: World, d: seq<Proposal>) {
    w.leader in w.nodes && d <= LeaderLogOf(w)
  }

  /** Nobody who meets what an election among the followers demands misses anything of `d`. */
  ghost predicate WinnersHave(w: World, d: seq<Proposal>) {
    forall ring, x :: ring <= w.followers && Wins(w.nodes, ring, x) ==> d <= Log(w.nodes[x])
  }

  /** Whatever happens next, no leader and nobody who could become one misses anything of `d`. */
  ghost predicate Survives(w: World, d: seq<Proposal>) {
    forall w' :: Reaches(w, w') ==> LeaderHas(w', d) && WinnersHave(w', d)
  }

  /** The followers lacking `d` could form a proper term. */
  ghost predicate Unstuck(w: World, d: seq<Proposal>) {
    forall i :: i in Lacking(w, d) ==> !w.nodes[i].track.active && w.nodes[i].epoch < 0xFFFF
  }

  /** A sequence of proposals, committed or not, survives exactly if fewer than a majority of all
      nodes are followers that lack it. If they do not, and none of them is in sync mode, a run leads
      to a leader without it. */
  lemma SurvivesExactly(w: World, d: seq<Proposal>)
    requires Reachable(w) && w.leader in w.nodes && d <= LeaderLogOf(w)
    ensures Survives(w, d) <==> FewLack(w, d)
    ensures Unstuck(w, d) ==> (LeadersKeep(w, d) <==> FewLack(w, d))
  {
    hide *;
    if FewLack(w, d) {
      FewLackSurvives(w, d);
    } else {
      ReachesItself(w);
      FewLackExactly(w, d);
      NotSurviving(w, d);
      if Unstuck(w, d) { LostInARun(w, d); }
    }
  }

  lemma FewLackSurvives(w: World, d: seq<Proposal>)
    requires Reachable(w) && FewLack(w, d)
    ensures Survives(w, d) && LeadersKeep(w, d)
  {
    hide Reachable, Reaches, WinnersHave, LeaderHas, FewLack;
    forall w' | Reaches(w, w') ensures LeaderHas(w', d) && WinnersHave(w', d) {
      StaysKept(w, w', d);
      FewLackIs(w', d);
      FewLackExactly(w', d);
      assert LeaderHas(w', d) by { hide *; HasIt(w', d); }
    }
  }

  lemma HasIt(w: World, d: seq<Proposal>)
    requires w.leader in w.nodes && d <= LeaderLogOf(w)
    ensures LeaderHas(w, d)
  {
  }

  lemma ReachesItself(w: World)
    requires Reachable(w)
    ensures Reaches(w, w)
  {
    hide Reachable, WellFormed, Inv;
    ReachableSafe(w);
    assert Possible(w, []) && Run(w, []) == w;
  }

  lemma NotSurviving(w: World, d: seq<Proposal>)
    requires Reaches(w, w) && !WinnersHave(w, d)
    ensures !Survives(w, d)
  {
    hide Reaches, WinnersHave;
  }

  /** A majority of followers that lack `d`, none of them in sync mode, can elect a leader without
      it. */
  lemma LostInARun(w: World, d: seq<Proposal>)
    requires Reachable(w) && w.leader in w.nodes && d <= LeaderLogOf(w) && !FewLack(w, d) && Unstuck(w, d)
    ensures !LeadersKeep(w, d)
  {
    hide *;
    var x := LosingRing(w, d);
    LosingElection(w, Lacking(w, d), x, d);
    LeaderLacks(w, StartTerm(w.nodes, Lacking(w, d), x), d);
  }

  lemma LosingRing(w: World, d: seq<Proposal>) returns (x: string)
    requires Reachable(w) && w.leader in w.nodes && d <= LeaderLogOf(w) && !FewLack(w, d) && Unstuck(w, d)
    ensures WellFormed(w) && Lacking(w, d) <= w.followers && Lacking(w, d) <= w.nodes.Keys && x in Lacking(w, d)
    ensures CanElect(w.nodes, Lacking(w, d), x) && !(d <= Log(w.nodes[x]))
  {
    hide Reachable, Log, LeaderStands, FollowerStands;
    Standing(w);
    x := SomeoneIsFirst(w.nodes, Lacking(w, d));
  }

  lemma LeaderLacks(w: World, w': World, d: seq<Proposal>)
    requires Reaches(w, w') && w'.leader in w'.nodes && !(d <= LeaderLogOf(w'))
    ensures !LeadersKeep(w, d)
  {
    hide Reaches, Log;
    assert !LeaderHas(w', d);
  }

  lemma LogOfLeader(w: World)
    requires w.leader in w.nodes
    ensures LeaderLogOf(w) == Log(w.nodes[w.leader])
  {
  }

  lemma LosingElection(w: World, ring: set<string>, x: string, d: seq<Proposal>)
    requires Reachable(w) && WellFormed(w) && ring <= w.followers && CanElect(w.nodes, ring, x) && !(d <= Log(w.nodes[x]))
    ensures var w' := StartTerm(w.nodes, ring, x);
            Reaches(w, w') && w'.leader == x && x in w'.nodes && LeaderLogOf(w') == Log(w.nodes[x])
  {
    assert Enabled(w, Elect(ring, x)) && Apply(w, Elect(ring, x)) == StartTerm(w.nodes, ring, x) by { hide StartTerm, Log, Reachable; }
    assert ring <= w.nodes.Keys && x in ring && ring <= w.followers by { hide Log, Reachable; }
    hide *;
    OneStepReaches(w, Elect(ring, x));
    ElectedIsIdle(w, ring, x);
    SameLogs(w.nodes, ring, x);
    NewTermShape(w.nodes, ring, x);
    LogOfLeader(StartTerm(w.nodes, ring, x));
  }

  // ---- The main results ----

  /** What a majority holds, few lack. */
  lemma DecidedFewLack(w: World)
    requires Reachable(w)
    ensures w.leader in w.nodes && FewLack(w, Decided(w)) && Bounded(w, Decided(w))
  {
    DecidedIsDurable(w);
    LeaderHasDurable(w, Decided(w));
    Standing(w);
    hide Reachable, ViewOf, Log, FollowerStands;
    var d := Decided(w);
    assert Lacking(w, d) * Holders(w.nodes, d) == {};
    SubsetSize(Lacking(w, d) + Holders(w.nodes, d), w.nodes.Keys);
    assert |w.nodes.Keys| == |w.nodes|;
  }

  /** What a node committed in an open term, few lack: only the flush at a NewLeader message and
      sync mode commit what a majority may lack. */
  lemma CommittedInOpenTerm(w: World, i: string)
    requires Reachable(w) && i in w.Ring() && w.leader in w.nodes && TermView(w).open
    ensures i in w.nodes && FewLack(w, w.nodes[i].committed)
  {
    CommittedEverywhere(w, i);
    DecidedFewLack(w);
    hide Reachable, ViewOf, Log;
    var c, d := w.nodes[i].committed, Decided(w);
    assert Lacking(w, c) <= Lacking(w, d);
    SubsetSize(Lacking(w, c), Lacking(w, d));
  }

  /** What was decided by `w`, and what node `i` had committed if few followers lacked it, is still at
      the start of the leader's log in `w'`, and no decision was taken back. */
  ghost predicate Preserves(w: World, w': World, i: string) {
    && w.leader in w.nodes && i in w.nodes && w'.leader in w'.nodes
    && Decided(w) <= LeaderLogOf(w')
    && (TermView(w').open ==> Decided(w) <= Decided(w'))
    && (FewLack(w, w.nodes[i].committed) ==> w.nodes[i].committed <= LeaderLogOf(w'))
  }

  /** Leader completeness over any number of steps and elections, whoever crashes in between. */
  lemma LeaderCompleteness(w: World, w': World, i: string)
    requires Reachable(w) && Reaches(w, w') && i in w.Ring()
    ensures Preserves(w, w', i)
  {
    hide Reachable, Reaches, ViewOf, Log, FollowerStands, FewLack;
    DecidedFewLack(w);
    StaysKept(w, w', Decided(w));
    FewLackIs(w', Decided(w));
    CommittedEverywhere(w, i);
    Standing(w');
    if FewLack(w, w.nodes[i].committed) {
      StaysKept(w, w', w.nodes[i].committed);
      FewLackIs(w', w.nodes[i].committed);
    }
    hide InAgreement;
    ViewBounds(TermView(w'));
  }

  lemma FewLackIs(w: World, d: seq<Proposal>)
    requires FewLack(w, d)
    ensures w.leader in w.nodes && d <= LeaderLogOf(w)
  {
    hide Log;
  }

  /** Nodes of different terms never disagree on what few followers lacked when it was committed. */
  lemma AgreementAcrossTerms(w: World, w': World, i: string, j: string)
    requires Reachable(w) && Reaches(w, w') && i in w.Ring() && i in w.nodes && j in w'.Ring()
    requires FewLack(w, w.nodes[i].committed)
    ensures j in w'.nodes
    ensures w.nodes[i].committed <= w'.nodes[j].committed || w'.nodes[j].committed <= w.nodes[i].committed
  {
    hide Reachable, Reaches, ViewOf, Log, Decided;
    StaysKept(w, w', w.nodes[i].committed);
    CommittedEverywhere(w', j);
    PrefixesComparable(w.nodes[i].committed, w'.nodes[j].committed, LeaderLogOf(w'));
  }
}
