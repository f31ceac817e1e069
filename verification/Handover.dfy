/** The handover to a new leader and the order in which quorums complete, step by step. */
module Handover {
  import opened Zxid
  import opened Messages
  import opened Collections
  import opened Channel
  import opened SyncReply
  import opened ProposalLog
  import opened AckCounting
  import opened ZabNode
  import opened FollowerSteps
  import opened LeaderSteps
  import opened TermSteps
  import opened Cluster
  import opened ClusterSafety
  import opened ClusterRuns
  import opened ClusterTheorems

  // ---- Quorums complete in zxid order ----

  /** An acknowledgement that lets the leader commit is for the proposal right after those already
      decided; what is committed is the head of the queue, which is `lag` entries older. */
  lemma AckCommitsInOrder(v: View, ld: Node, lag: nat, peers: Peers, systems: nat, i: string, a: Proposal, rest: seq<ZabMsg>,
                          verdict: Verdict)
    requires TermInv(v, ld, lag, peers, systems) && v.open
    requires i in peers && peers[i].up == [Ack(a)] + rest
    ensures var ld' := Process(ld, NetMsg(i, Ack(a)), verdict, systems);
            var decided := v.base + v.fired;
            && (ld'.committed != ld.committed ==>
                 && 0 <= decided - lag <= decided < |v.log|
                 && a == v.log[decided] && ld.queue != [] && ld.queue[0] == v.log[decided - lag]
                 && ld'.committed == ld.committed + [ld.queue[0]]
                 && (ld.queue[0] == a <==> lag == 0))
  {
    hide InStep, Process, Route, Dense, Log, Acks, PeerAcked, Counted;
    var acked, outstanding := AckedBy(v, peers), |UnsettledPeers(v, peers)|;
    NextAck(v, peers[i], a, rest, peers.Keys);
    AckEffect(v, ld, lag, acked, outstanding, systems, i, verdict);
    var decided := v.base + v.fired;
    assert ld.queue != [] ==> ld.queue[0] == v.log[|ld.committed|];
    if lag > 0 && decided < |v.log| {
      DenseIncreasing(v.log, decided - lag, decided);
    }
  }

  /** If a message from follower `i` makes the leader commit, it acknowledges the first proposal not
      decided yet, and the leader commits the head of its queue, which is that very proposal exactly
      when the leader began its term with an empty queue. */
  ghost predicate CommitsHead(w: World, i: string, w': World) {
    && w.leader in w.nodes && w.leader in w'.nodes && i in w.up && w.up[i] != []
    && var ld, ld', log, m := w.nodes[w.leader], w'.nodes[w.leader], LeaderLogOf(w), w.up[i][0];
      ld'.committed != ld.committed ==>
        && m.Ack? && |Decided(w)| < |log| && m.ack == log[|Decided(w)|]
        && ld.queue != [] && ld'.committed == ld.committed + [ld.queue[0]]
        && (ld.queue[0] == m.ack <==> w.lag == 0)
  }

  lemma QuorumCommitsHead(w: World, i: string, verdict: Verdict)
    requires Reachable(w) && WellFormed(w) && Enabled(w, DeliverUp(i, verdict))
    requires w.up[i][0].Ack? && TermView(w).open
    ensures CommitsHead(w, i, Apply(w, DeliverUp(i, verdict)))
  {
    hide Reachable, ViewOf, MayPropose, CommitsHead, PeersOf, TermInv, Inv;
    TermOf(w);
    TermCommitsHead(w, i, verdict);
  }

  lemma TermOf(w: World)
    requires Reachable(w)
    ensures WellFormed(w) && TermInv(TermView(w), w.nodes[w.leader], w.lag, PeersOf(w), |w.nodes|)
  {
    hide Reachable, TermInv;
    ReachableSafe(w);
  }

  lemma TermCommitsHead(w: World, i: string, verdict: Verdict)
    requires WellFormed(w) && i in w.followers && w.up[i] != [] && w.up[i][0].Ack? && TermView(w).open
    requires TermInv(TermView(w), w.nodes[w.leader], w.lag, PeersOf(w), |w.nodes|)
    ensures CommitsHead(w, i, DeliveredUp(w, i, verdict))
  {
    hide Log, PeersOf, Process, Route, TermInv;
    PopPeer(w, i, w.(up := w.up[i := w.up[i][1..]]));
    PeersAre(w, i);
    var v, m, rest := TermView(w), w.up[i][0], w.up[i][1..] + Route(PeersOf(w)[i].node.outbox, w.leader);
    AckCommitsInOrder(v, w.nodes[w.leader], w.lag, PeersOf(w), |w.nodes|, i, m.ack, rest, verdict);
  }

  lemma LogIsViewed(w: World)
    requires w.leader in w.nodes
    ensures TermView(w).log == LeaderLogOf(w)
  {
  }

  // ---- Writes wait until the term is open ----

  /** What a message does to a leader whose followers are still catching up: nothing is proposed,
      broadcast or committed; a write joins the held ones; when the term opens, all held writes move to the
      processing queue, each once and in the order they arrived. */
  ghost predicate HeldStep(ld: Node, ld': Node, net: NetMsg) {
    && ld'.saved == ld.saved && ld'.committed == ld.committed && ld'.queue == ld.queue && ld'.acks == ld.acks
    && ld.outbox <= ld'.outbox && NoneFor(ld'.outbox[|ld.outbox|..], {})
    && if ld'.processing then
         net.msg.Ack? && ld'.holding == [] && ld'.inbox == ld.inbox + ld.holding
       else
         ld'.inbox == ld.inbox && ld'.holding == ld.holding + (if IsWrite(net.msg) then [net] else [])
  }

  lemma ClosedAck(v: View, ld: Node, lag: nat, peers: Peers, systems: nat, i: string, a: Proposal, rest: seq<ZabMsg>, verdict: Verdict)
    requires TermInv(v, ld, lag, peers, systems) && !v.open && i in peers && peers[i].up == [Ack(a)] + rest
    ensures var ld' := Process(ld, NetMsg(i, Ack(a)), verdict, systems);
            HeldStep(ld, ld', NetMsg(i, Ack(a)))
            && (ld'.processing <==> UnsettledPeers(v, peers[i := peers[i].(up := rest)]) == {})
  {
    hide InStep, Process, Dense, Log, Acks, PeerAcked, Counted, Unsettled;
    var acked, unsettled := AckedBy(v, peers), UnsettledPeers(v, peers);
    NextAck(v, peers[i], a, rest, peers.Keys);
    PopAck(v, peers[i], a, rest, peers.Keys);
    OneSettles(v, peers, i, peers[i].(up := rest));
    NewLeaderAckStep(v, ld, lag, acked, |unsettled|, systems, i, verdict);
    assert ld.holding + [] == ld.holding;
  }

  lemma ClosedRequest(v: View, ld: Node, lag: nat, peers: Peers, systems: nat, remote: string, req: Request, verdict: Verdict)
    requires TermInv(v, ld, lag, peers, systems) && !v.open
    requires req.kind == Sync ==> remote in peers && ld.name !in peers && exists rest :: peers[remote].up == [Req(req)] + rest
    ensures var ld' := Process(ld, NetMsg(remote, Req(req)), verdict, systems);
            HeldStep(ld, ld', NetMsg(remote, Req(req))) && !ld'.processing
  {
    hide InStep, Process, Dense, Log, Acks, PeerAcked, Counted, Unsettled, Reply;
    var acked, unsettled := AckedBy(v, peers), UnsettledPeers(v, peers);
    if req.kind == Sync {
      var rest :| peers[remote].up == [Req(req)] + rest;
      var n := SyncPosition(v, peers[remote], req, rest, peers.Keys);
      SyncStep(v, ld, lag, acked, |unsettled|, systems, remote, req, n, verdict);
      assert ld.holding + [] == ld.holding;
      AddressedElsewhere(Reply(ld.saved, ld.epoch, ld.count, req), remote, {});
    } else {
      WriteNotProposed(v, ld, lag, acked, |unsettled|, systems, remote, req, verdict);
    }
  }

  lemma ClosedArrival(v: View, ld: Node, lag: nat, peers: Peers, systems: nat, i: string, m: ZabMsg, rest: seq<ZabMsg>, verdict: Verdict)
    requires TermInv(v, ld, lag, peers, systems) && !v.open && i in peers && ld.name !in peers && peers[i].up == [m] + rest
    ensures var ld' := Process(ld, NetMsg(i, m), verdict, systems);
            HeldStep(ld, ld', NetMsg(i, m))
            && (ld'.processing <==> m.Ack? && UnsettledPeers(v, peers[i := peers[i].(up := rest)]) == {})
  {
    assert m.Req? || m.Ack? by { hide Leader; assert InStep(v, peers[i], peers.Keys); FirstFromFollower(v, peers[i], m, rest, peers.Keys); }
    hide Leader, PeersOk, Process, HeldStep;
    if m.Ack? {
      ClosedAck(v, ld, lag, peers, systems, i, m.ack, rest, verdict);
    } else {
      ClosedRequest(v, ld, lag, peers, systems, i, m.req, verdict);
    }
  }

  /** Until the last follower has caught up the leader proposes and commits nothing, whatever
      reaches it. */
  lemma HeldUntilOpen(w: World, i: string, verdict: Verdict)
    requires Reachable(w) && WellFormed(w) && Enabled(w, DeliverUp(i, verdict)) && !TermView(w).open
    ensures var w' := Apply(w, DeliverUp(i, verdict));
            && HeldStep(w.nodes[w.leader], w'.nodes[w.leader], NetMsg(i, w.up[i][0]))
            && LeaderLogOf(w') == LeaderLogOf(w)
  {
    hide Reachable, ViewOf, MayPropose, TermInv, PeersOf, Route, Process, HeldStep, Inv;
    TermOf(w);
    PeerKeys(w);
    PopPeer(w, i, w.(up := w.up[i := w.up[i][1..]]));
    var v, ld, rest := TermView(w), w.nodes[w.leader], w.up[i][1..] + Route(PeersOf(w)[i].node.outbox, w.leader);
    LeaderIsNamed(w);
    ClosedArrival(v, ld, w.lag, PeersOf(w), |w.nodes|, i, w.up[i][0], rest, verdict);
    HeldKeepsLog(ld, Process(ld, NetMsg(i, w.up[i][0]), verdict, |w.nodes|), NetMsg(i, w.up[i][0]));
  }

  lemma HeldKeepsLog(ld: Node, ld': Node, net: NetMsg)
    requires HeldStep(ld, ld', net)
    ensures Log(ld') == Log(ld)
  {
  }

  lemma LeaderIsNamed(w: World)
    requires Reachable(w)
    ensures w.leader in w.nodes && w.nodes[w.leader].name == w.leader
  {
    hide Reachable, TermInv;
    ReachableSafe(w);
  }

  /** The leader's own writes wait as well. */
  lemma OwnWritesHeld(w: World, verdict: Verdict)
    requires Reachable(w) && WellFormed(w) && Enabled(w, ProcessOwn(w.leader, verdict)) && !TermView(w).open
    ensures var ld, ld' := w.nodes[w.leader], Apply(w, ProcessOwn(w.leader, verdict)).nodes[w.leader];
            HeldStep(ld.(inbox := ld.inbox[1..]), ld', ld.inbox[0]) && !ld'.processing
  {
    hide Reachable, ViewOf, MayPropose, TermInv, PeersOf, Route, Process, HeldStep, Inv;
    TermOf(w);
    PeerKeys(w);
    var v, ld := TermView(w), w.nodes[w.leader];
    InboxHoldsWrites(v, ld, w.lag, PeersOf(w), |w.nodes|);
    var ld1, net := ld.(inbox := ld.inbox[1..]), ld.inbox[0];
    assert AllWrites(ld1.inbox);
    QueuesKeep(v, ld, w.lag, PeersOf(w), |w.nodes|, ld1);
    ClosedRequest(v, ld1, w.lag, PeersOf(w), |w.nodes|, net.remote, net.msg.req, verdict);
  }

  // ---- A whole handover ----

  /** The write that reaches the leader in this step, if there is one. */
  function Arriving(w: World, a: Action): seq<NetMsg> {
    if a.DeliverUp? && a.node in w.up && w.up[a.node] != [] && IsWrite(w.up[a.node][0]) then [NetMsg(a.node, w.up[a.node][0])]
    else if a.ProcessOwn? && a.node == w.leader && w.leader in w.nodes && w.nodes[w.leader].inbox != [] then
      [w.nodes[w.leader].inbox[0]]
    else []
  }

  /** The writes that reach it in a run, in order. */
  ghost function Arrivals(w: World, acts: seq<Action>): seq<NetMsg>
    requires WellFormed(w) && Possible(w, acts)
    decreases |acts|
  {
    if acts == [] then [] else Arrivals(w, acts[..|acts| - 1]) + Arriving(Run(w, acts[..|acts| - 1]), acts[|acts| - 1])
  }

  /** A run within one term that is not open before the last step. */
  ghost predicate ClosedUntilNow(w: World, acts: seq<Action>)
    requires WellFormed(w) && Possible(w, acts)
    decreases |acts|
  {
    acts == [] ||
    var init, last := acts[..|acts| - 1], acts[|acts| - 1];
    ClosedUntilNow(w, init) && !last.Elect? && !Open(Run(w, init))
  }

  /** The leader processes requests. */
  predicate Open(w: World) {
    w.leader in w.nodes && w.nodes[w.leader].processing
  }

  /** A step of a term that is not open: nothing is proposed or committed, and an arriving write joins
      the held ones; or the term opens, no write arrives, and the held ones move. */
  ghost predicate HeldAcross(w: World, a: Action, w': World) {
    && w.leader in w.nodes && w'.leader == w.leader && w.leader in w'.nodes
    && var ld, ld' := w.nodes[w.leader], w'.nodes[w.leader];
      && ld'.saved == ld.saved && ld'.committed == ld.committed
      && (Open(w') ==> Arriving(w, a) == [] && ld'.holding == [] && ld'.inbox == ld.inbox + ld.holding)
      && (!Open(w') ==> ld'.holding == ld.holding + Arriving(w, a))
  }

  lemma StepHolds(w: World, a: Action)
    requires Reachable(w) && WellFormed(w) && Enabled(w, a) && !a.Elect? && !Open(w)
    ensures HeldAcross(w, a, Apply(w, a))
  {
    hide Reachable, HeldAcross, WellFormed;
    match a
    case Submit(i, num, content) => SubmitHolds(w, i, num, content);
    case SendNext(i) => SendHolds(w, i);
    case DeliverDown(i) => DownHolds(w, i);
    case DeliverUp(i, v) => UpHolds(w, i, v);
    case ProcessOwn(i, v) => OwnHolds(w, i, v);
  }

  lemma SubmitHolds(w: World, i: string, num: int, content: seq<byte>)
    requires WellFormed(w) && Enabled(w, Submit(i, num, content)) && !Open(w)
    ensures HeldAcross(w, Submit(i, num, content), Apply(w, Submit(i, num, content)))
  {
    assert w.nodes[w.leader].holding + [] == w.nodes[w.leader].holding;
  }

  lemma SendHolds(w: World, i: string)
    requires WellFormed(w) && Enabled(w, SendNext(i)) && !Open(w)
    ensures HeldAcross(w, SendNext(i), Apply(w, SendNext(i)))
  {
    hide Route;
    assert w.nodes[w.leader].holding + [] == w.nodes[w.leader].holding;
  }

  lemma DownHolds(w: World, i: string)
    requires WellFormed(w) && Enabled(w, DeliverDown(i)) && !Open(w)
    ensures HeldAcross(w, DeliverDown(i), Apply(w, DeliverDown(i)))
  {
    hide Process;
    assert w.nodes[w.leader].holding + [] == w.nodes[w.leader].holding;
  }

  lemma ClosedView(w: World)
    requires w.leader in w.nodes
    ensures TermView(w).open == Open(w)
  {
  }

  lemma UpHolds(w: World, i: string, v: Verdict)
    requires Reachable(w) && WellFormed(w) && Enabled(w, DeliverUp(i, v)) && !Open(w)
    ensures HeldAcross(w, DeliverUp(i, v), Apply(w, DeliverUp(i, v)))
  {
    hide Reachable, MayPropose, Process, ViewOf, NoneFor, Log;
    ClosedView(w);
    HeldUntilOpen(w, i, v);
  }

  lemma OwnHolds(w: World, i: string, v: Verdict)
    requires Reachable(w) && WellFormed(w) && Enabled(w, ProcessOwn(i, v)) && !Open(w)
    ensures HeldAcross(w, ProcessOwn(i, v), Apply(w, ProcessOwn(i, v)))
  {
    hide Reachable, MayPropose, Process, ViewOf, NoneFor, Log, Inv;
    ClosedView(w);
    if i == w.leader {
      OwnWritesHeld(w, v);
      OwnIsWrite(w);
    } else {
      assert w.nodes[w.leader].holding + [] == w.nodes[w.leader].holding;
    }
  }

  lemma OwnIsWrite(w: World)
    requires Reachable(w) && WellFormed(w) && w.nodes[w.leader].inbox != []
    ensures IsWrite(w.nodes[w.leader].inbox[0].msg)
  {
    hide Reachable, TermInv, PeersOf, ViewOf;
    TermOf(w);
    InboxHoldsWrites(TermView(w), w.nodes[w.leader], w.lag, PeersOf(w), |w.nodes|);
  }

  /** What a handover has done to the leader: its proposals and commits are as they were; until the
      term opens exactly the writes that arrived are held, in the order they arrived; when it opens
      they all move to its processing queue, once. */
  ghost predicate Handed(w: World, acts: seq<Action>)
    requires WellFormed(w) && Possible(w, acts)
  {
    var w' := Run(w, acts);
    && w.leader in w.nodes && w'.leader == w.leader && w.leader in w'.nodes
    && var ld, ld' := w.nodes[w.leader], w'.nodes[w.leader];
      && ld'.saved == ld.saved && ld'.committed == ld.committed
      && (!Open(w') ==> ld'.holding == ld.holding + Arrivals(w, acts))
      && (Open(w') ==>
           && acts != [] && ld'.holding == []
           && var w1 := Run(w, acts[..|acts| - 1]);
             w.leader in w1.nodes && ld'.inbox == w1.nodes[w.leader].inbox + (ld.holding + Arrivals(w, acts)))
  }

  lemma {:induction false} HeldOverRun(w: World, acts: seq<Action>)
    requires Reachable(w) && WellFormed(w) && !Open(w) && Possible(w, acts) && ClosedUntilNow(w, acts)
    ensures Reachable(Run(w, acts)) && Handed(w, acts)
    decreases |acts|
  {
    hide Reachable, WellFormed, Enabled, Apply, Open;
    if acts == [] {
      assert w.nodes[w.leader].holding + [] == w.nodes[w.leader].holding by { LeaderIsNamed(w); }
    } else {
      var init, last := acts[..|acts| - 1], acts[|acts| - 1];
      HeldOverRun(w, init);
      var w1 := Run(w, init);
      StepHolds(w1, last);
      ReachableStep(w1, last);
      hide Arriving;
      Regroup(w.nodes[w.leader].holding, Arrivals(w, init), Arriving(w1, last));
      assert Arrivals(w, init) + [] == Arrivals(w, init);
    }
  }

  /** What the new leader holds, counted from its election, is what arrived since. */
  lemma HeldSinceElection(w: World, ring: set<string>, leader: string, acts: seq<Action>)
    requires Reachable(w) && WellFormed(w) && Enabled(w, Elect(ring, leader))
    requires var w0 := Apply(w, Elect(ring, leader)); !Open(w0) && Possible(w0, acts) && ClosedUntilNow(w0, acts)
    ensures var w0 := Apply(w, Elect(ring, leader)); Handed(w0, acts) && w0.leader in w0.nodes && w0.nodes[w0.leader].holding == []
  {
    StartHoldsNothing(w, ring, leader);
    hide *;
    ReachableStep(w, Elect(ring, leader));
    HeldOverRun(Apply(w, Elect(ring, leader)), acts);
  }

  lemma StartHoldsNothing(w: World, ring: set<string>, leader: string)
    requires Reachable(w) && WellFormed(w) && Enabled(w, Elect(ring, leader))
    ensures var w0 := Apply(w, Elect(ring, leader)); w0.leader in w0.nodes && w0.nodes[w0.leader].holding == []
  {
    hide Reachable;
    ElectedIsIdle(w, ring, leader);
  }

  // ---- The follower's side of the handover ----

  /** The follower has not caught up with the leader's log yet. */
  ghost predicate Behind(v: View, f: Node, down: seq<ZabMsg>) {
    !v.open && (down == [Prop(v.nl)] || f.track.active)
  }

  /** SyncFinish is signalled exactly when a follower catches up, and then it has committed exactly
      the leader's log up to the term: nothing missing, repeated or out of order. */
  ghost predicate FinishStep(v: View, f: Node, down: seq<ZabMsg>, f': Node, down': seq<ZabMsg>) {
    && f'.finished == f.finished + (if Behind(v, f, down) && !Behind(v, f', down') then 1 else 0)
    && (Behind(v, f', down') ==> Behind(v, f, down))
    && (f'.finished != f.finished ==> f'.committed == v.log && f'.queue == [] && v.base == |v.log|)
  }

  lemma FinishWithLog(v: View, f: Node, m: ZabMsg, rest: seq<ZabMsg>, up: seq<ZabMsg>, systems: nat)
    requires ViewOk(v) && Follower(v, f, [m] + rest, up)
    ensures FinishStep(v, f, [m] + rest, Handled(v, f, m, systems), rest)
  {
    hide WellSaved, StateChanges, Dense, LastId, Acks, Syncs, Handled, Consistent, Carried, Commits, NeverOutruns, Addressed;
    var down, f' := [m] + rest, Handled(v, f, m, systems);
    assert down[1..] == rest && down[0] == m;
    AnnouncedOnce(v, f, m, rest, up);
    if Waiting(v, f, down, up) {
      AnnouncementEffect(v, f, systems);
      LogWithin(v, f);
    } else if m.Err? || m.SyncErr? {
      NoticeEffect(v, f, m, systems);
    } else if CatchingUp(v, f, down, up) {
      assert Syncs(up) == [] by { CarriedNonEmpty(m.prop, rest); }
      CarriedHead(v, |Log(f)|, m, rest);
      CatchUpEffect(v, f, m.prop, systems);
      LogWithin(v, f');
    } else if IsStateChange(m.prop) {
      CarriedHead(v, |Log(f)|, m, rest);
      ReceiveEffect(v, f, m.prop, systems);
    } else {
      assert m == COMMIT_MSG;
      CommitEffect(v, f, rest, up, systems);
    }
  }

  lemma AnnouncedOnce(v: View, f: Node, m: ZabMsg, rest: seq<ZabMsg>, up: seq<ZabMsg>)
    requires ViewOk(v) && Follower(v, f, [m] + rest, up)
    ensures !v.open ==> rest != [Prop(v.nl)]
  {
    hide WellSaved, StateChanges, Dense, LastId, Acks, Syncs, Consistent, Carried, Commits, NeverOutruns;
    var down := [m] + rest;
    assert down[1..] == rest && down[0] == m;
    var nl := [Prop(v.nl)];
    assert !v.open ==> !IsPlain(nl[0]) && !Plain(nl) && !OnlyStateChanges(nl);
    assert down == nl ==> |rest| == 0;
    assert Plain(down) ==> Plain(rest);
    assert OnlyStateChanges(down) ==> OnlyStateChanges(rest);
  }

  lemma LogWithin(v: View, f: Node)
    requires Consistent(f, v.log)
    ensures |Log(f)| >= |v.log| ==> Log(f) == v.log
  {
    hide WellSaved, StateChanges, LastId;
  }

  /** A follower that signals SyncFinish has committed exactly the leader's log, and the term is
      not open yet. */
  ghost predicate FinishesWithLog(w: World, i: string, w': World) {
    && w.leader in w.nodes && i in w.nodes && i in w'.nodes
    && (w'.nodes[i].finished != w.nodes[i].finished ==>
         !TermView(w).open && w'.nodes[i].committed == LeaderLogOf(w) && w'.nodes[i].queue == [])
  }

  lemma SyncFinishHasLog(w: World, i: string)
    requires Reachable(w) && WellFormed(w) && Enabled(w, DeliverDown(i))
    ensures FinishesWithLog(w, i, Apply(w, DeliverDown(i)))
  {
    hide Reachable, ViewOf, TermInv, PeersOf, Process, FinishesWithLog, Inv;
    TermOf(w);
    LeaderIsNamed(w);
    TermFinishes(w, i);
  }

  lemma TermFinishes(w: World, i: string)
    requires WellFormed(w) && i in w.followers && w.down[i] != [] && w.nodes[w.leader].name == w.leader
    requires TermInv(TermView(w), w.nodes[w.leader], w.lag, PeersOf(w), |w.nodes|)
    ensures FinishesWithLog(w, i, DeliveredDown(w, i))
  {
    hide ViewOf, TermInv, PeersOf, Route, Process, Handled, InStep;
    PeerKeys(w);
    var v, p := TermView(w), PeersOf(w)[i];
    TermFacts(v, w.nodes[w.leader], w.lag, PeersOf(w), |w.nodes|);
    DeliveredDownEffect(w, i);
    var m, rest := p.down[0], p.down[1..];
    assert [m] + rest == p.down;
    InStepFollower(v, p, PeersOf(w).Keys);
    hide Follower, ViewOk;
    FinishWithLog(v, p.node, m, rest, p.up, |w.nodes|);
    LogIsViewed(w);
  }

  lemma InStepFollower(v: View, p: Peer, names: set<string>)
    requires InStep(v, p, names)
    ensures Follower(v, p.node, p.down, p.up)
  {
  }

  // ---- A sync mode that was never left ----

  /** A follower that is still in sync mode when a new leader at the same zxid announces itself
      acknowledges at once but stays in that mode: it commits the next proposal of the new term
      before any quorum and exits on the COMMIT that follows. A follower not in sync mode queues
      the proposal and survives. */
  lemma StaleSyncModeBreaksTerm(f: Node, nl: Proposal, p: Proposal)
    requires f.coordinator != f.name && nl.kind == NEW_LEADER && |nl.content| == 4
    requires f.Id() == BytesToUint32(nl.content) && IsStateChange(p) && f.track.cap <= p.Id() && !f.stopped
    ensures var f1 := OnProposal(f, nl, f.coordinator);
            var f2 := OnProposal(f1, p, f.coordinator);
            var f3 := OnProposal(f2, COMMIT_MSG.prop, f.coordinator);
            && f1.outbox == f.outbox + [To(f.coordinator, Ack(nl))] && f1.committed == f.committed + f.queue
            && (f.track.active <==> f1.track.active)
            && f2.committed == f1.committed + (if f.track.active then [p] else [])
            && f2.outbox == f1.outbox + [To(f.coordinator, Ack(if f.track.active then f.track.prop else p))]
            && (f3.stopped <==> f.track.active)
  {
  }
}
