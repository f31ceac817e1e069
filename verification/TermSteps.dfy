/** The invariant of a term, and that every step of the cluster within the term keeps it. */
module TermSteps {
  import opened Zxid
  import opened Messages
  import opened Collections
  import opened Channel
  import opened SyncReply
  import opened ProposalLog
  import opened ZabNode
  import opened FollowerSteps
  import opened LeaderSteps
  import opened Cluster

  // ---- Routing ----

  lemma {:induction false} RouteAppend(a: seq<Outgoing>, b: seq<Outgoing>, target: string)
    ensures Route(a + b, target) == Route(a, target) + Route(b, target)
  {
    if a == [] {
      assert a + b == b;
    } else {
      assert (a + b)[1..] == a[1..] + b;
      RouteAppend(a[1..], b, target);
      var head := if a[0].Broadcast? || a[0].target == target then [a[0].msg] else [];
      assert Route(a, target) == head + Route(a[1..], target);
      assert Route(a + b, target) == head + Route(a[1..] + b, target);
      Regroup(head, Route(a[1..], target), Route(b, target));
    }
  }

  lemma {:induction false} RouteAddressed(ms: seq<ZabMsg>, to: string, target: string)
    ensures Route(Addressed(ms, to), target) == if to == target then ms else []
  {
    if ms != [] {
      assert Addressed(ms, to)[1..] == Addressed(ms[1..], to);
      RouteAddressed(ms[1..], to, target);
    }
  }

  lemma RouteOne(o: Outgoing, target: string)
    ensures Route([o], target) == if o.Broadcast? || o.target == target then [o.msg] else []
  {
    assert [o][1..] == [];
  }

  /** Nothing in a sending queue is for a node of the set. */
  predicate NoneFor(out: seq<Outgoing>, nodes: set<string>) {
    forall k :: 0 <= k < |out| ==> out[k].To? && out[k].target !in nodes
  }

  /** Followers only send requests and acknowledgements. */
  predicate FromFollower(ms: seq<ZabMsg>) {
    forall k :: 0 <= k < |ms| ==> ms[k].Req? || ms[k].Ack?
  }

  // ---- The invariant ----

  /** A follower with the messages on their way to it and from it. */
  datatype Peer = Peer(node: Node, down: seq<ZabMsg>, up: seq<ZabMsg>)

  type Peers = map<string, Peer>

  ghost predicate InStep(v: View, p: Peer, names: set<string>) {
    Follower(v, p.node, p.down, p.up) && FromFollower(p.up) && NoneFor(p.node.outbox, names)
  }

  function PeerAcked(v: View, p: Peer): int {
    Acked(v, p.node, p.up)
  }

  ghost predicate Unsettled(v: View, p: Peer) {
    Outstanding(v, p.node, p.down, p.up)
  }

  function AckedBy(v: View, peers: Peers): map<string, int> {
    map i | i in peers :: PeerAcked(v, peers[i])
  }

  ghost function UnsettledPeers(v: View, peers: Peers): set<string> {
    set i | i in peers && Unsettled(v, peers[i])
  }

  ghost predicate PeersOk(v: View, peers: Peers) {
    forall i :: i in peers ==> InStep(v, peers[i], peers.Keys)
  }

  ghost predicate TermInv(v: View, ld: Node, lag: nat, peers: Peers, systems: nat) {
    PeersOk(v, peers) && Leader(v, ld, lag, AckedBy(v, peers), |UnsettledPeers(v, peers)|, systems)
  }

  // ---- Steps of a follower ----

  lemma CountedSame(v: View, ld: Node, acked: map<string, int>, systems: nat, acked': map<string, int>)
    requires Counted(v, ld, acked, systems)
    requires acked'.Keys == acked.Keys
    requires forall i <- acked :: acked'[i] == acked[i] || (acked'[i] <= 0 && acked[i] <= 0)
    ensures Counted(v, ld, acked', systems)
  {
    forall k: uint16 | 1 <= k
      ensures Ackers(acked', k) == Ackers(acked, k)
    {
    }
  }

  lemma LeaderSame(v: View, ld: Node, lag: nat, acked: map<string, int>, outstanding: nat, systems: nat,
                   acked': map<string, int>, outstanding': nat)
    requires Leader(v, ld, lag, acked, outstanding, systems)
    requires acked'.Keys == acked.Keys
    requires forall i <- acked :: acked'[i] == acked[i] || (acked'[i] <= 0 && acked[i] <= 0)
    requires v.open || outstanding' == outstanding
    ensures Leader(v, ld, lag, acked', outstanding', systems)
  {
    CountedSame(v, ld, acked, systems, acked');
    assert |acked'.Keys| == |acked.Keys|;
  }

  lemma {:induction false} AddressedElsewhere(ms: seq<ZabMsg>, to: string, nodes: set<string>)
    requires to !in nodes
    ensures NoneFor(Addressed(ms, to), nodes)
  {
    if ms != [] {
      AddressedElsewhere(ms[1..], to, nodes);
    }
  }

  lemma ReactionFromFollower(v: View, f: Node, m: ZabMsg)
    ensures FromFollower(Reaction(v, f, m))
  {
  }

  /** What a follower's sending queue adds to its link when it reacts. */
  lemma ReactionReachesLink(v: View, f: Node, f': Node, m: ZabMsg, link: seq<ZabMsg>, peers: set<string>)
    requires f'.outbox == f.outbox + Addressed(Reaction(v, f, m), v.leader)
    requires v.leader !in peers && NoneFor(f.outbox, peers) && FromFollower(link + Route(f.outbox, v.leader))
    ensures link + Route(f'.outbox, v.leader) == link + Route(f.outbox, v.leader) + Reaction(v, f, m)
    ensures NoneFor(f'.outbox, peers) && FromFollower(link + Route(f'.outbox, v.leader))
  {
    var r := Reaction(v, f, m);
    ReactionFromFollower(v, f, m);
    hide Reaction, Route, Addressed;
    RouteAppend(f.outbox, Addressed(r, v.leader), v.leader);
    RouteAddressed(r, v.leader, v.leader);
    Regroup(link, Route(f.outbox, v.leader), r);
    AddressedElsewhere(r, v.leader, peers);
  }

  /** A message from the leader arrives at a follower. */
  function DeliveredTo(v: View, p: Peer, link: seq<ZabMsg>, systems: nat): Peer
    requires p.down != []
  {
    var f := Handled(v, p.node, p.down[0], systems);
    Peer(f, p.down[1..], link + Route(f.outbox, v.leader))
  }

  lemma Delivered(v: View, p: Peer, link: seq<ZabMsg>, names: set<string>, systems: nat)
    requires ViewOk(v) && v.leader !in names
    requires InStep(v, p, names) && p.down != [] && p.up == link + Route(p.node.outbox, v.leader)
    ensures var p' := DeliveredTo(v, p, link, systems);
            && InStep(v, p', names) && p'.node.name == p.node.name && Log(p.node) <= Log(p'.node)
            && (!v.open ==> (Unsettled(v, p') <==> Unsettled(v, p)))
            && (PeerAcked(v, p') == PeerAcked(v, p) || (PeerAcked(v, p') <= 0 && PeerAcked(v, p) <= 0))
  {
    hide Follower, Handled, Reaction, Outstanding, Acked, FromFollower, NoneFor, Addressed, Route, ViewOk;
    var f, m, rest := p.node, p.down[0], p.down[1..];
    assert [m] + rest == p.down;
    FollowerStep(v, f, m, rest, p.up, systems);
    ReactionReachesLink(v, f, Handled(v, f, m, systems), m, link, names);
  }

  lemma LeaderFacts(v: View, ld: Node, lag: nat, acked: map<string, int>, outstanding: nat, systems: nat)
    requires Leader(v, ld, lag, acked, outstanding, systems)
    ensures ViewOk(v) && v.leader == ld.name && v == ViewOf(ld, lag)
  {
  }

  lemma TermFacts(v: View, ld: Node, lag: nat, peers: Peers, systems: nat)
    requires TermInv(v, ld, lag, peers, systems)
    ensures ViewOk(v) && v.leader == ld.name && v == ViewOf(ld, lag)
    ensures forall i <- peers :: InStep(v, peers[i], peers.Keys)
  {
    hide InStep, ViewOk, Counted, CountsInOrder, WellSaved, Log, AllWrites, AckedBy, UnsettledPeers;
  }

  /** One follower changes without acknowledging more to the leader than before. */
  lemma PeerChanges(v: View, ld: Node, lag: nat, peers: Peers, systems: nat, i: string, p: Peer)
    requires TermInv(v, ld, lag, peers, systems) && i in peers
    requires InStep(v, p, peers.Keys)
    requires !v.open ==> (Unsettled(v, p) <==> Unsettled(v, peers[i]))
    requires PeerAcked(v, p) == PeerAcked(v, peers[i]) || (PeerAcked(v, p) <= 0 && PeerAcked(v, peers[i]) <= 0)
    ensures TermInv(v, ld, lag, peers[i := p], systems)
  {
    hide Leader, InStep, Unsettled, PeerAcked;
    var peers' := peers[i := p];
    assert peers'.Keys == peers.Keys;
    assert !v.open ==> UnsettledPeers(v, peers') == UnsettledPeers(v, peers);
    LeaderSame(v, ld, lag, AckedBy(v, peers), |UnsettledPeers(v, peers)|, systems, AckedBy(v, peers'), |UnsettledPeers(v, peers')|);
  }

  lemma DeliverDownStep(v: View, ld: Node, lag: nat, peers: Peers, systems: nat, i: string, link: seq<ZabMsg>)
    requires TermInv(v, ld, lag, peers, systems) && ld.name !in peers
    requires i in peers && peers[i].down != [] && peers[i].up == link + Route(peers[i].node.outbox, v.leader)
    ensures var p := DeliveredTo(v, peers[i], link, systems);
            && TermInv(v, ld, lag, peers[i := p], systems)
            && p.node.name == peers[i].node.name && Log(peers[i].node) <= Log(p.node)
  {
    hide Leader, InStep, Unsettled, PeerAcked, Route, DeliveredTo, ViewOk, Log;
    LeaderFacts(v, ld, lag, AckedBy(v, peers), |UnsettledPeers(v, peers)|, systems);
    Delivered(v, peers[i], link, peers.Keys, systems);
    PeerChanges(v, ld, lag, peers, systems, i, DeliveredTo(v, peers[i], link, systems));
  }

  // ---- Steps of the leader ----

  /** Within a term the leader's view only grows. */
  ghost predicate Advances(v: View, v': View) {
    && v'.leader == v.leader && v'.base == v.base && v.log <= v'.log && v.fired <= v'.fired
    && (v.open ==> v'.open)
  }

  /** The followers see what the leader sends: `sent(i)` more on the link to follower `i`. */
  function SentTo(peers: Peers, out: seq<Outgoing>): Peers {
    map i | i in peers :: peers[i].(down := peers[i].down + Route(out, i))
  }

  /** A proposal of an open term reaches every link. */
  lemma SeesProposal(v: View, q: Peer, names: set<string>, p: Proposal)
    requires ViewOk(v) && v.open && InStep(v, q, names) && IsStateChange(p) && Dense(v.log + [p])
    ensures InStep(v.(log := v.log + [p]), q.(down := q.down + [Prop(p)]), names)
  {
    hide FromFollower, NoneFor, Dense, NeverOutruns, Plain, WellSaved, LastId;
    var add, f := [Prop(p)], q.node;
    AppendProjections(q.down, add);
    AddOne(Prop(p));
    PlainAppend(q.down, add);
    NeverOutrunsAppend(q.down, add, |f.queue|);
    assert Consistent(f, v.log + [p]);
    assert v.log[|Log(f)|..] + [p] == (v.log + [p])[|Log(f)|..];
  }

  /** A COMMIT reaches every link behind the proposals it may find there. */
  lemma SeesCommit(v: View, q: Peer, names: set<string>)
    requires ViewOk(v) && v.open && InStep(v, q, names) && v.base + v.fired < |v.log|
    ensures InStep(v.(fired := v.fired + 1), q.(down := q.down + [COMMIT_MSG]), names)
  {
    hide FromFollower, NoneFor, Dense, NeverOutruns, Plain, Carried, Commits, Acks, Syncs, OnlyStateChanges, WellSaved, LastId, Log;
    var add, f := [COMMIT_MSG], q.node;
    AppendProjections(q.down, add);
    AddOne(COMMIT_MSG);
    PlainAppend(q.down, add);
    NeverOutrunsAppend(q.down, add, |f.queue|);
    assert |f.queue| + |Carried(q.down)| - Commits(q.down) == |v.log| - v.base - v.fired;
    assert Carried(q.down) + [] == Carried(q.down);
  }

  lemma SeesError(v: View, q: Peer, names: set<string>, m: ZabMsg)
    requires ViewOk(v) && v.open && InStep(v, q, names) && m.Err?
    ensures InStep(v, q.(down := q.down + [m]), names)
  {
    hide Consistent, FromFollower, NoneFor, Dense, NeverOutruns, Plain;
    var add, f := [m], q.node;
    AppendProjections(q.down, add);
    AddOne(m);
    PlainAppend(q.down, add);
    NeverOutrunsAppend(q.down, add, |f.queue|);
    assert Carried(q.down) + [] == Carried(q.down);
  }

  lemma AddOne(m: ZabMsg)
    ensures Carried([m]) == if m.Prop? && IsStateChange(m.prop) then [m.prop] else []
    ensures Commits([m]) == if m.Prop? && m.prop.kind == COMMIT then 1 else 0
    ensures Plain([m]) <==> IsPlain(m)
    ensures forall held: nat :: NeverOutruns([m], held) <==> (m.Prop? && m.prop.kind == COMMIT ==> held > 0)
  {
    assert [m][1..] == [];
  }

  lemma {:induction false} PlainAppend(a: seq<ZabMsg>, b: seq<ZabMsg>)
    ensures Plain(a + b) <==> Plain(a) && Plain(b)
  {
    if a == [] {
      assert a + b == b;
    } else {
      assert (a + b)[1..] == a[1..] + b;
      PlainAppend(a[1..], b);
    }
  }

  /** A term that is open has no unsettled followers to count. */
  lemma OpenIgnoresOutstanding(v: View, ld: Node, lag: nat, acked: map<string, int>, outstanding: nat, systems: nat, other: nat)
    requires Leader(v, ld, lag, acked, outstanding, systems) && v.open
    ensures Leader(v, ld, lag, acked, other, systems)
  {
  }

  lemma ProposeKeeps(v: View, ld: Node, lag: nat, peers: Peers, systems: nat, remote: string, req: Request, content: seq<byte>)
    requires TermInv(v, ld, lag, peers, systems) && v.open && req.kind == Write
    requires ld.count < 0xFFFF && Encodable(NextProposal(ld, content))
    ensures var ld' := Process(ld, NetMsg(remote, Req(req)), Accepted(content), systems);
            var out := [Broadcast(Prop(NextProposal(ld, content)))];
            && ld'.outbox == ld.outbox + out && ld'.name == ld.name
            && TermInv(ViewOf(ld', lag), ld', lag, SentTo(peers, out), systems)
            && Advances(v, ViewOf(ld', lag))
  {
    hide Leader, InStep, Process, Route, Dense, Outstanding, Log, Acks;
    var p := NextProposal(ld, content);
    var out := [Broadcast(Prop(p))];
    var ld', v', peers' := Process(ld, NetMsg(remote, Req(req)), Accepted(content), systems), v.(log := v.log + [p]), SentTo(peers, out);
    var outstanding := |UnsettledPeers(v, peers)|;
    LeaderFacts(v, ld, lag, AckedBy(v, peers), outstanding, systems);
    ProposeStep(v, ld, lag, AckedBy(v, peers), outstanding, systems, remote, req, content);
    LeaderFacts(v', ld', lag, AckedBy(v, peers), outstanding, systems);
    forall i | i in peers ensures InStep(v', peers'[i], peers.Keys) {
      RouteOne(out[0], i);
      SeesProposal(v, peers[i], peers.Keys, p);
    }
    assert peers'.Keys == peers.Keys && AckedBy(v', peers') == AckedBy(v, peers);
    OpenIgnoresOutstanding(v', ld', lag, AckedBy(v, peers), outstanding, systems, |UnsettledPeers(v', peers')|);
  }

  // ---- Messages arriving at the leader ----

  lemma PopUp(p: Peer, m: ZabMsg, rest: seq<ZabMsg>)
    requires p.up == [m] + rest && FromFollower(p.up)
    ensures FromFollower(rest) && (m.Req? || m.Ack?)
    ensures Acks(p.up) == (if m.Ack? then [m.ack] else []) + Acks(rest)
    ensures Syncs(p.up) == (if m.Req? && m.req.kind == Sync then [m.req] else []) + Syncs(rest)
  {
    assert p.up[1..] == rest && p.up[0] == m;
    forall k | 0 <= k < |rest| ensures rest[k].Req? || rest[k].Ack? {
      assert rest[k] == p.up[k + 1];
    }
  }

  /** Taking a write off the link does not matter to the follower. */
  lemma PopWrite(v: View, p: Peer, m: ZabMsg, rest: seq<ZabMsg>, names: set<string>)
    requires InStep(v, p, names) && p.up == [m] + rest && IsWrite(m)
    ensures InStep(v, p.(up := rest), names)
    ensures Unsettled(v, p.(up := rest)) == Unsettled(v, p) && PeerAcked(v, p.(up := rest)) == PeerAcked(v, p)
  {
    hide Consistent, NoneFor, NeverOutruns, Plain, Carried, FromFollower;
    PopUp(p, m, rest);
    assert [] + Acks(rest) == Acks(rest) && [] + Syncs(rest) == Syncs(rest);
  }

  /** Acknowledgements arrive in log order: in an open term the next one is for the proposal right
      after those already acknowledged, before it is the one for NewLeader. */
  lemma NextAck(v: View, p: Peer, a: Proposal, rest: seq<ZabMsg>, names: set<string>)
    requires ViewOk(v) && InStep(v, p, names) && p.up == [Ack(a)] + rest
    ensures v.open ==> var k := PeerAcked(v, p); 0 <= k < |v.log| - v.base && a == v.log[v.base + k]
    ensures !v.open ==> a == v.nl && Acks(p.up) == [v.nl] && |Log(p.node)| == v.base && PeerAcked(v, p) == -1
    ensures Ready(v, p.node, p.down, p.up)
  {
    hide NoneFor, NeverOutruns, Plain, Carried, WellSaved, Dense, FromFollower;
    PopUp(p, Ack(a), rest);
    assert Acks(p.up) != [];
    var log := Log(p.node);
    if v.open {
      var n := |log| - |Acks(p.up)|;
      assert log[n..][0] == log[n] == v.log[n];
    } else {
      assert |Acks(p.up)| >= 1;
      assert !AcksInOrder(v, log, Acks(p.up));
      assert Acks(p.up) == [v.nl] && Acks(p.up)[0] == a;
    }
  }

  lemma PopAck(v: View, p: Peer, a: Proposal, rest: seq<ZabMsg>, names: set<string>)
    requires ViewOk(v) && InStep(v, p, names) && p.up == [Ack(a)] + rest
    ensures InStep(v, p.(up := rest), names) && PeerAcked(v, p.(up := rest)) == PeerAcked(v, p) + 1
    ensures !v.open ==> Unsettled(v, p) && !Unsettled(v, p.(up := rest))
  {
    hide NoneFor, NeverOutruns, Carried, Consistent, FromFollower, Log;
    NextAck(v, p, a, rest, names);
    PopUp(p, Ack(a), rest);
    assert Acks(rest) == Acks(p.up)[1..];
    if v.open {
      var log, n := Log(p.node), |Log(p.node)| - |Acks(p.up)|;
      assert log[n..][1..] == log[n + 1..];
    } else {
      assert AcksInOrder(v, Log(p.node), []);
      assert !IsPlain(Prop(v.nl));
    }
    assert Ready(v, p.node, p.down, rest);
  }

  /** An acknowledgement of a proposal: a quorum commits the next proposal and broadcasts COMMIT. */
  lemma AckKeeps(v: View, ld: Node, lag: nat, peers: Peers, systems: nat, i: string, a: Proposal, rest: seq<ZabMsg>,
                 verdict: Verdict)
    returns (out: seq<Outgoing>)
    requires TermInv(v, ld, lag, peers, systems) && v.open
    requires i in peers && peers[i].up == [Ack(a)] + rest
    ensures var ld' := Process(ld, NetMsg(i, Ack(a)), verdict, systems);
            && ld'.outbox == ld.outbox + out && ld'.name == ld.name && Advances(v, ViewOf(ld', lag))
            && TermInv(ViewOf(ld', lag), ld', lag, SentTo(peers[i := peers[i].(up := rest)], out), systems)
  {
    hide Leader, InStep, Process, Route, Dense, Outstanding, Log, Acks, PeerAcked;
    var ld' := Process(ld, NetMsg(i, Ack(a)), verdict, systems);
    var popped := peers[i := peers[i].(up := rest)];
    var acked, outstanding := AckedBy(v, peers), |UnsettledPeers(v, peers)|;
    LeaderFacts(v, ld, lag, acked, outstanding, systems);
    NextAck(v, peers[i], a, rest, peers.Keys);
    PopAck(v, peers[i], a, rest, peers.Keys);
    LeaderCount(v, ld, lag, acked, outstanding, systems);
    AckStep(v, ld, lag, acked, outstanding, systems, i, verdict);
    var v' := ViewOf(ld', lag);
    LeaderFacts(v', ld', lag, acked[i := acked[i] + 1], outstanding, systems);
    assert popped.Keys == peers.Keys;
    assert AckedBy(v, popped) == acked[i := acked[i] + 1];
    out := if v' == v then [] else [Broadcast(COMMIT_MSG)];
    assert ld'.outbox == ld.outbox + out;
    PeersSee(v, v', popped, out);
    AckedIgnoresSent(v, v', popped, out);
    OpenIgnoresOutstanding(v', ld', lag, acked[i := acked[i] + 1], outstanding, systems, |UnsettledPeers(v', SentTo(popped, out))|);
  }

  /** A leader that has committed one more proposal has broadcast one COMMIT. */
  lemma PeersSee(v: View, v': View, peers: Peers, out: seq<Outgoing>)
    requires ViewOk(v) && ViewOk(v') && v.open && PeersOk(v, peers)
    requires (v' == v && out == []) || (v' == v.(fired := v.fired + 1) && out == [Broadcast(COMMIT_MSG)])
    ensures PeersOk(v', SentTo(peers, out))
  {
    hide InStep, Route;
    assert SentTo(peers, out).Keys == peers.Keys;
    forall j | j in peers ensures InStep(v', SentTo(peers, out)[j], peers.Keys) {
      if v' == v {
        SentNothing(peers);
      } else {
        RouteOne(out[0], j);
        SeesCommit(v, peers[j], peers.Keys);
      }
    }
  }

  lemma LeaderCount(v: View, ld: Node, lag: nat, acked: map<string, int>, outstanding: nat, systems: nat)
    requires Leader(v, ld, lag, acked, outstanding, systems)
    ensures v.base == |v.log| - ld.count
  {
  }

  lemma SentNothing(peers: Peers)
    ensures SentTo(peers, []) == peers
  {
    assert forall p: Peer :: p.down + [] == p.down;
  }

  lemma AckedIgnoresSent(v: View, v': View, peers: Peers, out: seq<Outgoing>)
    requires v'.base == v.base
    ensures AckedBy(v', SentTo(peers, out)) == AckedBy(v, peers)
  {
  }

  /** The followers that remain unsettled once one of them has settled. */
  lemma OneSettles(v: View, peers: Peers, i: string, p: Peer)
    requires i in peers && Unsettled(v, peers[i]) && !Unsettled(v, p)
    ensures |UnsettledPeers(v, peers[i := p])| == |UnsettledPeers(v, peers)| - 1
  {
    assert UnsettledPeers(v, peers[i := p]) == UnsettledPeers(v, peers) - {i};
  }

  /** A settled follower is ready for an open term. */
  lemma SettledIsReady(v: View, p: Peer, names: set<string>)
    requires ViewOk(v) && !v.open && InStep(v, p, names) && !Unsettled(v, p)
    ensures InStep(v.(open := true), p, names)
  {
    hide Consistent, NoneFor, FromFollower, NeverOutruns, Plain, Carried, Dense;
    assert Ready(v, p.node, p.down, p.up);
    assert Ready(v.(open := true), p.node, p.down, p.up);
  }

  /** An acknowledgement of NewLeader: the last one opens the term. */
  lemma NewLeaderAckArrives(v: View, ld: Node, lag: nat, peers: Peers, systems: nat, i: string, a: Proposal, rest: seq<ZabMsg>,
                            verdict: Verdict)
    requires TermInv(v, ld, lag, peers, systems) && !v.open
    requires i in peers && peers[i].up == [Ack(a)] + rest
    ensures var ld' := Process(ld, NetMsg(i, Ack(a)), verdict, systems);
            var peers' := peers[i := peers[i].(up := rest)];
            && ld'.outbox == ld.outbox && ld'.name == ld.name && Advances(v, ViewOf(ld', lag))
            && ViewOf(ld', lag).open == (UnsettledPeers(v, peers') == {})
            && TermInv(ViewOf(ld', lag), ld', lag, peers', systems)
  {
    hide Leader, InStep, Process, Route, Dense, Outstanding, Log, Acks, PeerAcked, Unsettled;
    var acked, unsettled := AckedBy(v, peers), UnsettledPeers(v, peers);
    var peers' := peers[i := peers[i].(up := rest)];
    LeaderFacts(v, ld, lag, acked, |unsettled|, systems);
    NextAck(v, peers[i], a, rest, peers.Keys);
    PopAck(v, peers[i], a, rest, peers.Keys);
    OneSettles(v, peers, i, peers'[i]);
    NewLeaderAckStep(v, ld, lag, acked, |unsettled|, systems, i, verdict);
    NewLeaderAckKeeps(v, ld, lag, acked, |unsettled|, systems, i, verdict);
    var v' := v.(open := |unsettled| == 1);
    assert peers'.Keys == peers.Keys;
    AckedIgnoresOpen(v, v', peers');
    assert AckedBy(v, peers') == acked[i := acked[i] + 1];
    if v'.open {
      OpensFor(v, peers');
      var ld' := Process(ld, NetMsg(i, Ack(a)), verdict, systems);
      OpenIgnoresOutstanding(v', ld', lag, AckedBy(v', peers'), |unsettled| - 1, systems, |UnsettledPeers(v', peers')|);
    } else {
      assert v' == v;
    }
  }

  lemma AckedIgnoresOpen(v: View, v': View, peers: Peers)
    requires v'.base == v.base
    ensures AckedBy(v', peers) == AckedBy(v, peers)
  {
  }

  lemma OpensFor(v: View, peers: Peers)
    requires ViewOk(v) && !v.open && PeersOk(v, peers) && |UnsettledPeers(v, peers)| == 0
    ensures PeersOk(v.(open := true), peers)
  {
    hide InStep, Unsettled, ViewOk;
    forall j | j in peers ensures InStep(v.(open := true), peers[j], peers.Keys) {
      assert j !in UnsettledPeers(v, peers);
      SettledIsReady(v, peers[j], peers.Keys);
    }
  }

  // ---- Requests arriving at the leader ----

  /** A request for missing entries: only the asking follower is sent anything, namely the rest of
      the leader's log. */
  lemma SyncKeeps(v: View, ld: Node, lag: nat, peers: Peers, systems: nat, i: string, req: Request, rest: seq<ZabMsg>,
                  verdict: Verdict)
    returns (out: seq<Outgoing>)
    requires TermInv(v, ld, lag, peers, systems) && ld.name !in peers && req.kind == Sync
    requires i in peers && peers[i].up == [Req(req)] + rest
    ensures var ld' := Process(ld, NetMsg(i, Req(req)), verdict, systems);
            && ld'.outbox == ld.outbox + out && ld'.name == ld.name && ViewOf(ld', lag) == v
            && TermInv(v, ld', lag, SentTo(peers[i := peers[i].(up := rest)], out), systems)
  {
    hide Leader, InStep, Process, Route, Dense, Outstanding, Log, Acks, PeerAcked, Unsettled, Reply, Addressed;
    var acked, unsettled := AckedBy(v, peers), UnsettledPeers(v, peers);
    var ld' := Process(ld, NetMsg(i, Req(req)), verdict, systems);
    LeaderFacts(v, ld, lag, acked, |unsettled|, systems);
    var n := SyncPosition(v, peers[i], req, rest, peers.Keys);
    SyncStep(v, ld, lag, acked, |unsettled|, systems, i, req, n, verdict);
    var reply := Reply(ld.saved, ld.epoch, ld.count, req);
    out := Addressed(reply, i);
    var q := peers[i].(up := rest, down := peers[i].down + reply);
    ReplySeen(v, peers[i], req, rest, reply, peers.Keys);
    PeerChanges(v, ld, lag, peers, systems, i, q);
    ReplyReaches(peers[i := peers[i].(up := rest)], i, reply);
    assert peers[i := peers[i].(up := rest)][i := q] == peers[i := q];
    LeaderQueues(v, ld, lag, ld');
    hide ViewOf, SentTo;
    LeaderOutbox(v, ld, lag, AckedBy(v, peers[i := q]), |UnsettledPeers(v, peers[i := q])|, systems, ld');
  }

  lemma ReplyReaches(peers: Peers, i: string, reply: seq<ZabMsg>)
    requires i in peers
    ensures SentTo(peers, Addressed(reply, i)) == peers[i := peers[i].(down := peers[i].down + reply)]
  {
    hide Route, Addressed;
    forall j | j in peers { RouteAddressed(reply, i, j); }
    assert forall p: Peer :: p.down + [] == p.down;
  }

  lemma LeaderQueues(v: View, ld: Node, lag: nat, ld': Node)
    requires v == ViewOf(ld, lag) && SameBut(ld, ld')
    ensures ViewOf(ld', lag) == v
  {
  }

  lemma LeaderOutbox(v: View, ld: Node, lag: nat, acked: map<string, int>, outstanding: nat, systems: nat, ld': Node)
    requires Leader(v, ld, lag, acked, outstanding, systems) && ld' == ld.(outbox := ld'.outbox)
    ensures Leader(v, ld', lag, acked, outstanding, systems)
  {
    QueuesDoNotMatter(v, ld, lag, acked, outstanding, systems, ld');
  }

  /** A follower asks from its own position in the leader's log. */
  lemma SyncPosition(v: View, p: Peer, req: Request, rest: seq<ZabMsg>, names: set<string>) returns (n: nat)
    requires ViewOk(v) && InStep(v, p, names) && p.up == [Req(req)] + rest && req.kind == Sync
    ensures CatchingUp(v, p.node, p.down, p.up) && n == |Log(p.node)| && Syncs(rest) == [] && Carried(p.down) == []
    ensures n <= |v.log| && req.content == Uint32ToBytes(LastId(v.log[..n]))
  {
    hide NoneFor, NeverOutruns, Plain, Carried, WellSaved, Dense, FromFollower;
    PopUp(p, Req(req), rest);
    n := |Log(p.node)|;
    assert Syncs(p.up)[0] == req;
    assert v.log[..n] == Log(p.node);
  }

  lemma ReplySeen(v: View, p: Peer, req: Request, rest: seq<ZabMsg>, reply: seq<ZabMsg>, names: set<string>)
    requires ViewOk(v) && InStep(v, p, names) && p.up == [Req(req)] + rest && req.kind == Sync
    requires |Log(p.node)| <= |v.log| && Carried(reply) == v.log[|Log(p.node)|..] && OnlyStateChanges(reply)
    ensures var q := p.(up := rest, down := p.down + reply);
            InStep(v, q, names) && Unsettled(v, q) && Unsettled(v, p) && PeerAcked(v, q) == PeerAcked(v, p)
  {
    hide NoneFor, NeverOutruns, Plain, Carried, Consistent, Dense, FromFollower, OnlyStateChanges;
    var n := SyncPosition(v, p, req, rest, names);
    PopUp(p, Req(req), rest);
    AppendProjections(p.down, reply);
    assert [] + Acks(rest) == Acks(rest);
    assert [] + Carried(reply) == Carried(reply);
    assert CatchingUp(v, p.node, p.down + reply, rest);
  }

  /** A write is held until the term opens, then proposed or denied. */
  lemma WriteKeeps(v: View, ld: Node, lag: nat, peers: Peers, systems: nat, remote: string, req: Request, verdict: Verdict)
    returns (out: seq<Outgoing>)
    requires TermInv(v, ld, lag, peers, systems) && req.kind == Write && MayPropose(ld, Req(req), verdict)
    ensures var ld' := Process(ld, NetMsg(remote, Req(req)), verdict, systems);
            && ld'.outbox == ld.outbox + out && ld'.name == ld.name && Advances(v, ViewOf(ld', lag))
            && TermInv(ViewOf(ld', lag), ld', lag, SentTo(peers, out), systems)
            && (!v.open ==> ld' == ld.(holding := ld.holding + [NetMsg(remote, Req(req))]) && out == [])
  {
    hide Leader, InStep, Process, Route, Dense, Outstanding, Log, Acks, PeerAcked, Unsettled;
    var acked, outstanding := AckedBy(v, peers), |UnsettledPeers(v, peers)|;
    var ld' := Process(ld, NetMsg(remote, Req(req)), verdict, systems);
    LeaderFacts(v, ld, lag, acked, outstanding, systems);
    OpenIsProcessing(v, ld, lag, acked, outstanding, systems);
    SentNothing(peers);
    if v.open && verdict.Accepted? {
      ProposeKeeps(v, ld, lag, peers, systems, remote, req, verdict.content);
      out := [Broadcast(Prop(NextProposal(ld, verdict.content)))];
    } else {
      WriteNotProposed(v, ld, lag, acked, outstanding, systems, remote, req, verdict);
      QueuesDoNotMatter(v, ld, lag, acked, outstanding, systems, ld');
      if !v.open || remote == ld.name {
        out := [];
        assert ld.outbox + out == ld.outbox;
      } else {
        out := [To(remote, Err(req.(content := verdict.content)))];
        ErrorSeen(v, peers, out);
        AckedIgnoresSent(v, v, peers, out);
        OpenIgnoresOutstanding(v, ld', lag, acked, outstanding, systems, |UnsettledPeers(v, SentTo(peers, out))|);
      }
    }
  }

  lemma OpenIsProcessing(v: View, ld: Node, lag: nat, acked: map<string, int>, outstanding: nat, systems: nat)
    requires Leader(v, ld, lag, acked, outstanding, systems)
    ensures v.open == ld.processing && AllWrites(ld.inbox) && AllWrites(ld.holding) && (v.open ==> ld.holding == [])
    ensures !ld.stopped && Log(ld) == v.log && ld.committed + ld.queue == v.log && Dense(v.log)
    ensures v.fired == |ld.committed| - (v.base - lag) && lag <= v.base && v.base == |v.log| - ld.count
  {
  }

  lemma ErrorSeen(v: View, peers: Peers, out: seq<Outgoing>)
    requires ViewOk(v) && v.open && PeersOk(v, peers) && |out| == 1 && out[0].To? && out[0].msg.Err?
    ensures PeersOk(v, SentTo(peers, out))
  {
    hide InStep, Route;
    assert SentTo(peers, out).Keys == peers.Keys;
    assert out == [out[0]];
    forall j | j in peers ensures InStep(v, SentTo(peers, out)[j], peers.Keys) {
      RouteOne(out[0], j);
      if j == out[0].target {
        SeesError(v, peers[j], peers.Keys, out[0].msg);
      } else {
        assert peers[j].down + [] == peers[j].down;
      }
    }
  }

  /** Taking a write off a link. */
  lemma PopWriteKeeps(v: View, ld: Node, lag: nat, peers: Peers, systems: nat, i: string, m: ZabMsg, rest: seq<ZabMsg>)
    requires TermInv(v, ld, lag, peers, systems) && i in peers && peers[i].up == [m] + rest && IsWrite(m)
    ensures TermInv(v, ld, lag, peers[i := peers[i].(up := rest)], systems)
  {
    hide Leader, InStep, PeerAcked, Unsettled;
    PopWrite(v, peers[i], m, rest, peers.Keys);
    PeerChanges(v, ld, lag, peers, systems, i, peers[i].(up := rest));
  }

  /** Any message arriving at the leader from a follower. */
  lemma ArrivalKeeps(v: View, ld: Node, lag: nat, peers: Peers, systems: nat, i: string, m: ZabMsg, rest: seq<ZabMsg>,
                     verdict: Verdict)
    returns (out: seq<Outgoing>)
    requires TermInv(v, ld, lag, peers, systems) && ld.name !in peers && MayPropose(ld, m, verdict)
    requires i in peers && peers[i].up == [m] + rest
    ensures var ld' := Process(ld, NetMsg(i, m), verdict, systems);
            && ld'.outbox == ld.outbox + out && ld'.name == ld.name && Advances(v, ViewOf(ld', lag))
            && TermInv(ViewOf(ld', lag), ld', lag, SentTo(peers[i := peers[i].(up := rest)], out), systems)
  {
    hide Leader, InStep, Process, Route, SentTo;
    assert m.Req? || m.Ack? by { assert InStep(v, peers[i], peers.Keys); FirstFromFollower(v, peers[i], m, rest, peers.Keys); }
    if m.Ack? {
      if v.open {
        out := AckKeeps(v, ld, lag, peers, systems, i, m.ack, rest, verdict);
      } else {
        NewLeaderAckArrives(v, ld, lag, peers, systems, i, m.ack, rest, verdict);
        out := [];
        assert ld.outbox + out == ld.outbox;
        SentNothing(peers[i := peers[i].(up := rest)]);
      }
    } else if m.req.kind == Sync {
      out := SyncKeeps(v, ld, lag, peers, systems, i, m.req, rest, verdict);
    } else {
      PopWriteKeeps(v, ld, lag, peers, systems, i, m, rest);
      out := WriteKeeps(v, ld, lag, peers[i := peers[i].(up := rest)], systems, i, m.req, verdict);
    }
  }

  lemma FirstFromFollower(v: View, p: Peer, m: ZabMsg, rest: seq<ZabMsg>, names: set<string>)
    requires InStep(v, p, names) && p.up == [m] + rest
    ensures m.Req? || m.Ack?
  {
    assert p.up[0] == m;
  }

  /** The leader's queues of requests and of messages already accounted for do not matter. */
  lemma QueuesKeep(v: View, ld: Node, lag: nat, peers: Peers, systems: nat, ld': Node)
    requires TermInv(v, ld, lag, peers, systems) && SameBut(ld, ld')
    requires AllWrites(ld'.inbox) && ld'.holding == ld.holding
    ensures TermInv(v, ld', lag, peers, systems) && ViewOf(ld', lag) == v
  {
    hide PeersOk, AckedBy, UnsettledPeers;
    var acked, outstanding := AckedBy(v, peers), |UnsettledPeers(v, peers)|;
    OpenIsProcessing(v, ld, lag, acked, outstanding, systems);
    hide Leader;
    QueuesDoNotMatter(v, ld, lag, acked, outstanding, systems, ld');
  }

  lemma InboxHoldsWrites(v: View, ld: Node, lag: nat, peers: Peers, systems: nat)
    requires TermInv(v, ld, lag, peers, systems)
    ensures AllWrites(ld.inbox)
  {
    hide PeersOk, AckedBy, UnsettledPeers;
    OpenIsProcessing(v, ld, lag, AckedBy(v, peers), |UnsettledPeers(v, peers)|, systems);
  }

  /** A follower's own sending queue may grow by a write, or move on to its link. */
  lemma PeerQueues(v: View, ld: Node, lag: nat, peers: Peers, systems: nat, i: string, p: Peer)
    requires TermInv(v, ld, lag, peers, systems) && i in peers
    requires p.node == peers[i].node.(outbox := p.node.outbox) && p.down == peers[i].down
    requires Acks(p.up) == Acks(peers[i].up) && Syncs(p.up) == Syncs(peers[i].up)
    requires FromFollower(p.up) && NoneFor(p.node.outbox, peers.Keys)
    ensures TermInv(v, ld, lag, peers[i := p], systems)
  {
    hide Leader, InStep, Acks, Syncs, FromFollower, NoneFor, Unsettled, PeerAcked;
    QueuesInStep(v, peers[i], p, peers.Keys);
    PeerChanges(v, ld, lag, peers, systems, i, p);
  }

  lemma QueuesInStep(v: View, p: Peer, q: Peer, names: set<string>)
    requires InStep(v, p, names)
    requires q.node == p.node.(outbox := q.node.outbox) && q.down == p.down
    requires Acks(q.up) == Acks(p.up) && Syncs(q.up) == Syncs(p.up)
    requires FromFollower(q.up) && NoneFor(q.node.outbox, names)
    ensures InStep(v, q, names) && Unsettled(v, q) == Unsettled(v, p) && PeerAcked(v, q) == PeerAcked(v, p)
  {
    hide WellSaved, NoneFor, FromFollower, NeverOutruns, Plain, Carried, Commits, Acks, Syncs, StateChanges, LastId, OnlyStateChanges;
  }
}
