/** One node of the broadcast protocol: its state, and what each handler does to it. The package
    level variables of the source are the fields of `Node`. */
module ZabNode {
  import opened Zxid
  import opened Messages
  import opened AckCounting
  import SyncReply

  /** The sync mode of a follower. */
  datatype SyncTracker = SyncTracker(active: bool, cap: uint32, prop: Proposal)

  datatype Node = Node(
    name: string,
    coordinator: string,
    epoch: uint16,               // zxidCounter
    count: uint16,
    acks: Tracker,               // ackCounter
    queue: seq<Proposal>,        // proposalsQueue: proposals awaiting COMMIT
    track: SyncTracker,          // syncTrack
    waiting: int,                // syncResponseTracker: NewLeader ACKs still missing
    currentSync: Proposal,
    syncing: bool,
    processing: bool,            // requestsProcessingEnabled
    holding: seq<NetMsg>,        // holdingRequestsQueue
    inbox: seq<NetMsg>,          // messageQueue: messages the node addressed to itself
    outbox: seq<Outgoing>,       // sendingQueue
    saved: seq<Proposal>,        // proposals handed to the proposal writer
    committed: seq<Proposal>,    // proposals whose request was handed to the commit listener
    failed: seq<Request>,        // requests reported as denied
    finished: nat,               // SyncFinish signals
    stopped: bool                // the process exited after a fatal error
  ) {
    function Id(): uint32 {
      Compose(epoch, count)
    }
  }

  function Fresh(name: string): Node {
    Node(name, "", 0, 0, map[], [], SyncTracker(false, 0, ZERO_PROPOSAL), 0, ZERO_PROPOSAL, false, false,
         [], [], [], [], [], [], 0, false)
  }

  /** Messages to the node itself skip the network. */
  function Send(n: Node, msg: ZabMsg, target: string): Node {
    if target == n.name then n.(inbox := n.inbox + [NetMsg(n.name, msg)])
    else n.(outbox := n.outbox + [To(target, msg)])
  }

  function SendAll(n: Node, msgs: seq<ZabMsg>, target: string): Node {
    if msgs == [] then n
    else Send(SendAll(n, msgs[..|msgs| - 1], target), msgs[|msgs| - 1], target)
  }

  function SubmitWrite(n: Node, num: int, content: seq<byte>): Node {
    Send(n, Req(Request(Write, num, content)), n.coordinator)
  }

  // ---- Becoming the leader ----

  function NewLeaderProposal(epoch: uint16, syncZxid: uint32): Proposal {
    Proposal(NEW_LEADER, epoch, 0, Uint32ToBytes(syncZxid))
  }

  /** Opens a new epoch, unless nothing was ever proposed; an unfinished sync is announced again. */
  function SendNewLeader(n: Node, addresses: nat): Node {
    if n.Id() == 0 then n.(syncing := false, processing := true)
    else
      var m := if n.syncing then n
               else n.(epoch := Increment(n.epoch), count := 0,
                       currentSync := NewLeaderProposal(Increment(n.epoch), n.Id()));
      m.(syncing := true,
         waiting := addresses - 1,
         saved := m.saved + [m.currentSync],
         outbox := m.outbox + [Broadcast(Prop(m.currentSync))])
  }

  // ---- Proposals ----

  /** In sync mode a state change is committed at once; the one reaching the cap ends the mode and
      acknowledges the NewLeader proposal. Otherwise it is acknowledged and queued. */
  function OnStateChange(n: Node, p: Proposal, source: string): Node {
    var m := n.(epoch := p.epoch, count := p.count, saved := n.saved + [p]);
    if n.track.active then
      var c := m.(committed := m.committed + [p]);
      if n.track.cap <= p.Id() then
        Send(c.(track := n.track.(active := false), finished := n.finished + 1), Ack(n.track.prop), source)
      else c
    else
      Send(m.(queue := m.queue + [p]), Ack(p), source)
  }

  /** COMMIT names no proposal: the head of the queue is committed. */
  function OnCommit(n: Node): Node {
    if n.queue == [] then n.(stopped := true)
    else n.(queue := n.queue[1..], committed := n.committed + [n.queue[0]])
  }

  /** Commits everything queued, then acknowledges if up to date and otherwise asks for the rest. */
  function OnNewLeader(n: Node, p: Proposal, source: string): Node {
    var m := n.(saved := n.saved + [p], committed := n.committed + n.queue, queue := []);
    if |p.content| < 4 then m.(stopped := true)
    else
      var latest := BytesToUint32(p.content);
      if m.Id() == latest then Send(m.(finished := m.finished + 1), Ack(p), source)
      else
        Send(m.(track := SyncTracker(true, latest, p)), Req(Request(Sync, 0, Uint32ToBytes(m.Id()))), m.coordinator)
  }

  function OnProposal(n: Node, p: Proposal, source: string): Node {
    if n.coordinator != source then n
    else if p.kind == STATE_CHANGE then OnStateChange(n, p, source)
    else if p.kind == COMMIT then OnCommit(n)
    else if p.kind == NEW_LEADER then OnNewLeader(n, p, source)
    else n.(stopped := true)
  }

  // ---- Acknowledgements and requests, at the leader ----

  const COMMIT_MSG := Prop(Proposal(COMMIT, 0, 0, []))

  /** The last acknowledgement of the current sync opens the request processing and moves the held
      requests to the processing queue. */
  function OnNewLeaderAck(n: Node): Node {
    var m := n.(waiting := n.waiting - 1);
    if m.waiting == 0 then m.(processing := true, syncing := false, inbox := m.inbox + m.holding, holding := [])
    else m
  }

  function CountAck(n: Node, p: Proposal, systems: nat): Node {
    var (acks, quorum) := Incremented(n.acks, p.Id(), systems / 2);
    var m := n.(acks := acks);
    if !quorum then m
    else
      var c := OnCommit(m);
      if c.stopped then c else c.(outbox := c.outbox + [Broadcast(COMMIT_MSG)])
  }

  function OnAck(n: Node, p: Proposal, systems: nat): Node {
    if p.kind == NEW_LEADER then
      if !n.processing && p.count == n.currentSync.count && p.epoch == n.currentSync.epoch then
        CountAck(OnNewLeaderAck(n), p, systems)
      else n
    else CountAck(n, p, systems)
  }

  /** An accepted write becomes the next proposal of the epoch; a denied one is sent back, unless
      it came from the leader itself. */
  function OnWrite(n: Node, req: Request, remote: string, verdict: Verdict): Node {
    if verdict.Denied? then
      if n.name == remote then n else Send(n, Err(req.(content := verdict.content)), remote)
    else
      var p := Proposal(STATE_CHANGE, n.epoch, Increment(n.count), verdict.content);
      n.(count := p.count,
         acks := Stored(n.acks, p.Id()),
         queue := n.queue + [p],
         saved := n.saved + [p],
         outbox := n.outbox + [Broadcast(Prop(p))])
  }

  function OnSync(n: Node, req: Request, remote: string): Node {
    if |req.content| < 4 then n.(stopped := true)
    else SendAll(n, SyncReply.Reply(n.saved, n.epoch, n.count, req), remote)
  }

  /** While requests are not processed, writes are held; sync requests always pass. */
  function OnRequest(n: Node, req: Request, remote: string, verdict: Verdict): Node {
    if req.kind == Sync then OnSync(n, req, remote)
    else if n.processing then OnWrite(n, req, remote, verdict)
    else n.(holding := n.holding + [NetMsg(remote, Req(req))])
  }

  function Process(n: Node, net: NetMsg, verdict: Verdict, systems: nat): Node {
    match net.msg
    case Req(req) => OnRequest(n, req, net.remote, verdict)
    case Prop(p) => OnProposal(n, p, net.remote)
    case Ack(p) => OnAck(n, p, systems)
    case Err(req) => n.(failed := n.failed + [req])
    case SyncErr(_) => n
  }

  /** The message processor: one message of the node's own queue. */
  function ProcessInbox(n: Node, verdict: Verdict, systems: nat): Node
    requires n.inbox != []
  {
    Process(n.(inbox := n.inbox[1..]), n.inbox[0], verdict, systems)
  }
}
