/** A cluster running the broadcast protocol through any number of leader terms: one leader, its
    followers, a FIFO link in each direction, and atomic message handling. A node that stops
    taking steps has crashed; a crashed leader is replaced by an election. */
module Cluster {
  import opened Zxid
  import opened Messages
  import opened Channel
  import opened SyncReply
  import opened ZabNode
  import ProposalLog

  datatype World = World(
    nodes: map<string, Node>,
    leader: string,
    followers: set<string>,           // the other addresses of the current term
    down: map<string, seq<ZabMsg>>,   // links from the leader
    up: map<string, seq<ZabMsg>>,     // links to the leader
    lag: nat                          // proposals the leader still had queued when its term began
  ) {
    function Ring(): set<string> {
      followers + {leader}
    }
  }

  datatype Action =
    | Submit(node: string, num: int, content: seq<byte>)
    | SendNext(node: string)
    | DeliverDown(node: string)
    | DeliverUp(node: string, verdict: Verdict)
    | ProcessOwn(node: string, verdict: Verdict)
    | Elect(ring: set<string>, leader: string)

  /** What a sending queue holds for one target. */
  function Route(out: seq<Outgoing>, target: string): seq<ZabMsg> {
    if out == [] then []
    else (if out[0].Broadcast? || out[0].target == target then [out[0].msg] else []) + Route(out[1..], target)
  }

  predicate IsWrite(m: ZabMsg) {
    m.Req? && m.req.kind == Write
  }

  /** A leader may propose as long as its 16-bit count does not wrap; the content is a marshalled
      request, hence not empty. */
  predicate MayPropose(n: Node, m: ZabMsg, verdict: Verdict) {
    IsWrite(m) && n.processing && verdict.Accepted? ==>
      n.count < 0xFFFF && 0 < |verdict.content| && ProposalLog.HEADER + |verdict.content| < 0x1_0000_0000
  }

  /** What an election demands: a majority of all nodes took part, and none of them has a higher
      zxid than the elected one. */
  ghost predicate Wins(nodes: map<string, Node>, ring: set<string>, leader: string) {
    && leader in ring && ring <= nodes.Keys
    && |ring| >= |nodes| / 2 + 1
    && forall i <- ring :: nodes[i].Id() <= nodes[leader].Id()
  }

  /** A follower still in sync mode that already has the new leader's zxid. */
  predicate Stuck(nodes: map<string, Node>, leader: string, i: string) {
    && i in nodes && leader in nodes && i != leader
    && nodes[i].track.active && nodes[i].Id() == nodes[leader].Id()
  }

  /** The elections after which a term works as intended: epochs have not run out, and nobody is
      stuck in sync mode (module `Failovers` shows a run that reaches such an election, and what
      happens then). */
  ghost predicate CanElect(nodes: map<string, Node>, ring: set<string>, leader: string) {
    && Wins(nodes, ring, leader)
    && nodes[leader].epoch < 0xFFFF
    && forall i <- ring :: !Stuck(nodes, leader, i)
  }

  /** The state right after an election: everybody knows the new coordinator, links are fresh and
      the leader has announced itself. */
  function StartTerm(nodes: map<string, Node>, ring: set<string>, leader: string): World
    requires ring <= nodes.Keys && leader in ring
  {
    var told := map i | i in nodes :: if i in ring then nodes[i].(coordinator := leader) else nodes[i];
    var first := SendNewLeader(told[leader], |ring|);
    var links := map i | i in ring - {leader} :: [];
    World(told[leader := first], leader, ring - {leader}, links, links, |first.queue|)
  }

  predicate WellFormed(w: World) {
    && w.leader in w.nodes && w.leader !in w.followers && w.followers <= w.nodes.Keys
    && w.down.Keys == w.followers && w.up.Keys == w.followers
  }

  ghost predicate Enabled(w: World, a: Action)
    requires WellFormed(w)
  {
    match a
    case Submit(i, _, _) => i in w.Ring() && !w.nodes[i].stopped
    case SendNext(i) => i in w.Ring() && w.nodes[i].outbox != []
    case DeliverDown(i) => i in w.followers && w.down[i] != [] && !w.nodes[i].stopped
    case DeliverUp(i, v) =>
      && i in w.followers && w.up[i] != [] && !w.nodes[w.leader].stopped
      && MayPropose(w.nodes[w.leader], w.up[i][0], v)
    case ProcessOwn(i, v) =>
      && i in w.Ring() && w.nodes[i].inbox != [] && !w.nodes[i].stopped
      && MayPropose(w.nodes[i], w.nodes[i].inbox[0].msg, v)
    case Elect(ring, leader) => ring <= w.followers && CanElect(w.nodes, ring, leader)
  }

  /** The message sender takes the head of the sending queue to the links. */
  function Sent(w: World, i: string): World
    requires WellFormed(w) && i in w.Ring() && w.nodes[i].outbox != []
  {
    var out := w.nodes[i].outbox[0];
    var nodes := w.nodes[i := w.nodes[i].(outbox := w.nodes[i].outbox[1..])];
    if i == w.leader then
      w.(nodes := nodes, down := map j | j in w.followers :: w.down[j] + Route([out], j))
    else
      w.(nodes := nodes, up := w.up[i := w.up[i] + Route([out], w.leader)])
  }

  function Submitted(w: World, i: string, num: int, content: seq<byte>): World
    requires i in w.nodes
  {
    w.(nodes := w.nodes[i := SubmitWrite(w.nodes[i], num, content)])
  }

  function DeliveredDown(w: World, i: string): World
    requires i in w.nodes && i in w.down && w.down[i] != []
  {
    var f := Process(w.nodes[i], NetMsg(w.leader, w.down[i][0]), Denied([]), |w.nodes|);
    w.(nodes := w.nodes[i := f], down := w.down[i := w.down[i][1..]])
  }

  function DeliveredUp(w: World, i: string, verdict: Verdict): World
    requires w.leader in w.nodes && i in w.up && w.up[i] != []
  {
    var ld := Process(w.nodes[w.leader], NetMsg(i, w.up[i][0]), verdict, |w.nodes|);
    w.(nodes := w.nodes[w.leader := ld], up := w.up[i := w.up[i][1..]])
  }

  function ProcessedOwn(w: World, i: string, verdict: Verdict): World
    requires i in w.nodes && w.nodes[i].inbox != []
  {
    w.(nodes := w.nodes[i := ProcessInbox(w.nodes[i], verdict, |w.nodes|)])
  }

  function Apply(w: World, a: Action): (w': World)
    requires WellFormed(w) && Enabled(w, a)
    ensures WellFormed(w')
  {
    match a
    case Submit(i, num, content) => Submitted(w, i, num, content)
    case SendNext(i) => Sent(w, i)
    case DeliverDown(i) => DeliveredDown(w, i)
    case DeliverUp(i, v) => DeliveredUp(w, i, v)
    case ProcessOwn(i, v) => ProcessedOwn(w, i, v)
    case Elect(ring, leader) => StartTerm(w.nodes, ring, leader)
  }
}
