/** The handlers as the server runs them: fields updated in place, queues drained by loops, the sync
    reply read from the epoch files. Each is proved to do what its counterpart in `ZabNode` says. */
module ZabHandlers {
  import opened Zxid
  import opened Messages
  import opened Collections
  import opened ProposalLog
  import opened SyncReply
  import opened AckCounting
  import opened ZabNode

  // ---- The messages of a reply, in order ----

  lemma SendAllOne(n: Node, ms: seq<ZabMsg>, m: ZabMsg, target: string)
    ensures SendAll(n, ms + [m], target) == Send(SendAll(n, ms, target), m, target)
  {
    assert (ms + [m])[..|ms|] == ms;
  }

  function NoticeIfUnreadable(records: seq<Proposal>, req: Request): seq<ZabMsg> {
    if ReadRecords(records, 1).Failed? then [SyncErr(req)] else []
  }

  lemma SendNone(n: Node, target: string)
    ensures SendAll(n, [], target) == n
  {
  }

  lemma SendOne(n: Node, m: ZabMsg, target: string)
    ensures SendAll(n, [m], target) == Send(n, m, target)
  {
    SendAllOne(n, [], m, target);
    assert [] + [m] == [m];
  }

  lemma {:induction false} SendAllAppend(n: Node, a: seq<ZabMsg>, b: seq<ZabMsg>, target: string)
    ensures SendAll(n, a + b, target) == SendAll(SendAll(n, a, target), b, target)
  {
    if b == [] {
      assert a + b == a;
    } else {
      var init := b[..|b| - 1];
      assert (a + b)[..|a + b| - 1] == a + init;
      SendAllAppend(n, a, init, target);
    }
  }

  lemma {:induction false} AsMessagesOneMore(ps: seq<Proposal>, p: Proposal)
    ensures AsMessages(ps + [p]) == AsMessages(ps) + [Prop(p)]
  {
    if ps == [] {
      assert ps + [p] == [p];
    } else {
      assert (ps + [p])[1..] == ps[1..] + [p];
      AsMessagesOneMore(ps[1..], p);
    }
  }

  /** One more proposal of a reply. */
  lemma OneMoreSent(n: Node, ps: seq<Proposal>, i: nat, target: string)
    requires i < |ps|
    ensures SendAll(n, AsMessages(ps[..i + 1]), target) == Send(SendAll(n, AsMessages(ps[..i]), target), Prop(ps[i]), target)
  {
    AsMessagesOneMore(ps[..i], ps[i]);
    assert ps[..i + 1] == ps[..i] + [ps[i]];
    hide SendAll, AsMessages, Send;
    SendAllOne(n, AsMessages(ps[..i]), Prop(ps[i]), target);
  }

  lemma NoneSent(n: Node, ps: seq<Proposal>, target: string)
    ensures SendAll(n, AsMessages(ps[..0]), target) == n
  {
    assert ps[..0] == [];
  }

  /** Reading the epoch files is reading the saved proposals of that epoch. */
  lemma ReadsRecords(files: map<uint16, seq<byte>>, saved: seq<Proposal>, epoch: uint16, k: int)
    requires Represents(files, saved) && AllFit(saved)
    ensures ReadFile(files, epoch, k) == ReadRecords(EpochRecords(saved, epoch), k)
  {
    ReadFileRepresents(files, saved, epoch, k);
  }

  lemma ReplyStep(saved: seq<Proposal>, epoch: uint16, count: uint16, highEpoch: uint16, highCount: uint16, req: Request)
    requires epoch <= highEpoch
    ensures ReplyFrom(saved, epoch, count, highEpoch, highCount, req) ==
      var records := EpochRecords(saved, epoch);
      if epoch == highEpoch then EpochReply(records, highCount - count, req)
      else EarlierEpoch(records, count, req) + ReplyFrom(saved, epoch + 1, 0, highEpoch, highCount, req)
  {
  }

  /** The branches of a NewLeader proposal in the order the handler takes its steps. */
  lemma NewLeaderCases(n: Node, p: Proposal, source: string)
    ensures var m := n.(saved := n.saved + [p], committed := n.committed + n.queue, queue := []);
            var acked := Send(m, Ack(p), source);
            OnNewLeader(n, p, source) ==
              if |p.content| < 4 then m.(stopped := true)
              else if n.Id() == BytesToUint32(p.content) then acked.(finished := acked.finished + 1)
              else Send(m.(track := SyncTracker(true, BytesToUint32(p.content), p)),
                        Req(Request(Sync, 0, Uint32ToBytes(n.Id()))), n.coordinator)
  {
  }

  /** The branches of a state change in the order the handler takes its steps. */
  lemma StateChangeCases(n: Node, p: Proposal, source: string)
    ensures var c := n.(epoch := p.epoch, count := p.count);
            var auto := c.(saved := n.saved + [p], committed := n.committed + [p]);
            var off := Send(auto.(track := n.track.(active := false)), Ack(n.track.prop), source);
            var plain := Send(c, Ack(p), source);
            OnStateChange(n, p, source) ==
              if !n.track.active then plain.(saved := plain.saved + [p], queue := plain.queue + [p])
              else if n.track.cap <= p.Id() then off.(finished := off.finished + 1)
              else auto
  {
    if !n.track.active {
      SavedAndSent(n.(epoch := p.epoch, count := p.count), p, source);
    } else if n.track.cap <= p.Id() {
      var auto := n.(epoch := p.epoch, count := p.count, saved := n.saved + [p], committed := n.committed + [p]);
      FinishedAndSent(auto.(track := n.track.(active := false)), Ack(n.track.prop), source);
    }
    hide Send;
  }

  lemma SavedAndSent(c: Node, p: Proposal, source: string)
    ensures var plain := Send(c, Ack(p), source);
            Send(c.(saved := c.saved + [p], queue := c.queue + [p]), Ack(p), source)
              == plain.(saved := plain.saved + [p], queue := plain.queue + [p])
  {
  }

  lemma FinishedAndSent(c: Node, m: ZabMsg, source: string)
    ensures var off := Send(c, m, source);
            Send(c.(finished := c.finished + 1), m, source) == off.(finished := off.finished + 1)
  {
  }

  class Server {
    const name: string
    const systems: nat
    const ackCounter: AckCounter
    const store: ProposalStore
    var coordinator: string
    var epoch: uint16
    var count: uint16
    var proposalsQueue: seq<Proposal>
    var syncTrack: SyncTracker
    var syncResponses: int
    var currentSync: Proposal
    var syncing: bool
    var processing: bool
    var holdingQueue: seq<NetMsg>
    var messageQueue: seq<NetMsg>
    var sendingQueue: seq<Outgoing>
    var committed: seq<Proposal>
    var failed: seq<Request>
    var finished: nat
    var stopped: bool
    ghost var saved: seq<Proposal>

    /** The files hold what was handed to the proposal writer. */
    ghost predicate Valid()
      reads this, store
    {
      Represents(store.files, saved) && AllFit(saved)
    }

    ghost function State(): Node
      reads this, ackCounter
    {
      Node(name, coordinator, epoch, count, ackCounter.ackTracker, proposalsQueue, syncTrack, syncResponses, currentSync,
           syncing, processing, holdingQueue, messageQueue, sendingQueue, saved, committed, failed, finished, stopped)
    }

    constructor (name: string, systems: nat)
      ensures Valid() && State() == Fresh(name) && this.name == name && this.systems == systems
      ensures fresh(ackCounter) && fresh(store)
    {
      this.name := name;
      this.systems := systems;
      ackCounter := new AckCounter();
      store := new ProposalStore();
      coordinator, epoch, count, proposalsQueue := "", 0, 0, [];
      syncTrack, syncResponses, currentSync := SyncTracker(false, 0, ZERO_PROPOSAL), 0, ZERO_PROPOSAL;
      syncing, processing, holdingQueue, messageQueue, sendingQueue := false, false, [], [], [];
      committed, failed, finished, stopped, saved := [], [], 0, false, [];
    }

    // ---- The pieces of state, one update each ----

    method SetVals(e: uint16, c: uint16)
      requires Valid()
      modifies this
      ensures Valid() && State() == old(State()).(epoch := e, count := c)
    {
      epoch, count := e, c;
    }

    method IncEpoch() returns (e: uint16, c: uint16)
      requires Valid()
      modifies this
      ensures Valid() && e == Increment(old(State()).epoch) && c == 0
      ensures State() == old(State()).(epoch := e, count := c)
    {
      epoch, count := Increment(epoch), 0;
      e, c := epoch, count;
    }

    method IncCount() returns (e: uint16, c: uint16)
      requires Valid()
      modifies this
      ensures Valid() && e == old(State()).epoch && c == Increment(old(State()).count)
      ensures State() == old(State()).(count := c)
    {
      count := Increment(count);
      e, c := epoch, count;
    }

    method EnqueueProposal(p: Proposal)
      requires Valid()
      modifies this
      ensures Valid() && State() == old(State()).(queue := old(State()).queue + [p])
    {
      proposalsQueue := proposalsQueue + [p];
    }

    method DequeueProposal() returns (p: Proposal, ok: bool)
      requires Valid()
      modifies this
      ensures Valid() && ok == (old(State()).queue != [])
      ensures !ok ==> State() == old(State())
      ensures ok ==> p == old(State()).queue[0] && State() == old(State()).(queue := old(State()).queue[1..])
    {
      if proposalsQueue == [] {
        return ZERO_PROPOSAL, false;
      }
      p, ok := proposalsQueue[0], true;
      proposalsQueue := proposalsQueue[1..];
    }

    method DequeueHeld() returns (net: NetMsg)
      requires Valid() && State().holding != []
      modifies this
      ensures Valid() && net == old(State()).holding[0]
      ensures State() == old(State()).(holding := old(State()).holding[1..])
    {
      net := holdingQueue[0];
      holdingQueue := holdingQueue[1..];
    }

    method EnqueueZabMessage(net: NetMsg)
      requires Valid()
      modifies this
      ensures Valid() && State() == old(State()).(inbox := old(State()).inbox + [net])
    {
      messageQueue := messageQueue + [net];
    }

    method NewSync(zxid: uint32, p: Proposal)
      requires Valid()
      modifies this
      ensures Valid() && State() == old(State()).(track := SyncTracker(true, zxid, p))
    {
      syncTrack := SyncTracker(true, zxid, p);
    }

    method Deactivate()
      requires Valid()
      modifies this
      ensures Valid() && State() == old(State()).(track := old(State()).track.(active := false))
    {
      syncTrack := syncTrack.(active := false);
    }

    method SignalSyncFinish()
      requires Valid()
      modifies this
      ensures Valid() && State() == old(State()).(finished := old(State()).finished + 1)
    {
      finished := finished + 1;
    }

    method Fatal()
      requires Valid()
      modifies this
      ensures Valid() && State() == old(State()).(stopped := true)
    {
      stopped := true;
    }

    /** Messages to the node itself skip the network. */
    method QueueSend(msg: ZabMsg, remote: string)
      requires Valid()
      modifies this`messageQueue, this`sendingQueue
      ensures Valid() && State() == Send(old(State()), msg, remote)
    {
      if name == remote {
        messageQueue := messageQueue + [NetMsg(name, msg)];
        return;
      }
      sendingQueue := sendingQueue + [To(remote, msg)];
    }

    method QueueBroadcast(msg: ZabMsg)
      requires Valid()
      modifies this
      ensures Valid() && State() == old(State()).(outbox := old(State()).outbox + [Broadcast(msg)])
    {
      sendingQueue := sendingQueue + [Broadcast(msg)];
    }

    /** The proposal writer, drained at once. */
    method QueueWriteProposal(p: Proposal)
      requires Valid() && Fits(p)
      modifies this, store
      ensures Valid() && State() == old(State()).(saved := old(State()).saved + [p])
    {
      hide Represents, EpochRecords, Encode;
      store.SaveProposal(p, saved);
      assert (saved + [p])[..|saved|] == saved;
      saved := saved + [p];
    }

    method QueueCommitProposal(p: Proposal)
      requires Valid()
      modifies this
      ensures Valid() && State() == old(State()).(committed := old(State()).committed + [p])
    {
      committed := committed + [p];
    }

    // ---- Becoming the leader ----

    method StartSync(prop: Proposal, addresses: nat)
      requires Valid()
      modifies this
      ensures Valid() && State() == old(State()).(currentSync := prop, syncing := true, waiting := addresses - 1)
    {
      currentSync, syncing, syncResponses := prop, true, addresses - 1;
    }

    /** `addresses` counts the leader as well. */
    method SendNewLeader(addresses: nat)
      requires Valid() && (syncing ==> Fits(currentSync))
      modifies this, store
      ensures Valid() && State() == ZabNode.SendNewLeader(old(State()), addresses)
    {
      var syncZxid := Compose(epoch, count);
      if syncZxid == 0 {
        syncing := false;
        processing := true;
        return;
      }
      var prop := currentSync;
      assert prop == State().currentSync && syncing == State().syncing && syncZxid == State().Id();
      hide State, Valid, Uint32ToBytes, Increment;
      if !syncing {
        var e, c := IncEpoch();
        prop := Proposal(NEW_LEADER, e, c, Uint32ToBytes(syncZxid));
      }
      StartSync(prop, addresses);
      QueueWriteProposal(prop);
      QueueBroadcast(Prop(prop));
    }

    // ---- Proposals ----

    method ProcessStateChangeProposal(p: Proposal, source: string)
      requires Valid() && Fits(p)
      modifies this, store
      ensures Valid() && State() == OnStateChange(old(State()), p, source)
    {
      var track := syncTrack;
      assert track == State().track;
      hide State, Valid, Send, OnStateChange;
      StateChangeCases(State(), p, source);
      SetVals(p.epoch, p.count);
      if track.active {
        QueueWriteProposal(p);
        QueueCommitProposal(p);
        if track.cap <= Compose(p.epoch, p.count) {
          Deactivate();
          QueueSend(Ack(track.prop), source);
          SignalSyncFinish();
          return;
        }
        return;
      }
      QueueSend(Ack(p), source);
      QueueWriteProposal(p);
      EnqueueProposal(p);
    }

    method ProcessCommitProposal()
      requires Valid()
      modifies this
      ensures Valid() && State() == OnCommit(old(State()))
    {
      hide State, Valid;
      var prop, ok := DequeueProposal();
      if !ok {
        Fatal();
        return;
      }
      QueueCommitProposal(prop);
    }

    /** Commits everything queued. */
    method FlushProposals()
      requires Valid()
      modifies this
      ensures Valid() && State() == old(State()).(committed := old(State()).committed + old(State()).queue, queue := [])
    {
      hide Valid, State;
      ghost var s := State();
      var some := IsQueued();
      while some
        invariant Valid() && some == (State().queue != [])
        invariant State() == s.(committed := State().committed, queue := State().queue)
        invariant State().committed + State().queue == s.committed + s.queue
        decreases |State().queue|
      {
        var popped, ok := DequeueProposal();
        QueueCommitProposal(popped);
        some := IsQueued();
      }
    }

    method IsQueued() returns (some: bool)
      requires Valid()
      ensures some == (State().queue != [])
    {
      some := proposalsQueue != [];
    }

    method ProcessNewLeaderProposal(p: Proposal, source: string)
      requires Valid() && Fits(p)
      modifies this, store
      ensures Valid() && State() == OnNewLeader(old(State()), p, source)
    {
      var currentZxid, leader := Compose(epoch, count), coordinator;
      assert currentZxid == State().Id() && leader == State().coordinator;
      hide State, Valid, Send, OnNewLeader, Uint32ToBytes, BytesToUint32;
      NewLeaderCases(State(), p, source);
      QueueWriteProposal(p);
      FlushProposals();
      if |p.content| < 4 {
        Fatal();
        return;
      }
      var latestZxid := BytesToUint32(p.content);
      if currentZxid == latestZxid {
        QueueSend(Ack(p), source);
        SignalSyncFinish();
        return;
      }
      NewSync(latestZxid, p);
      QueueSend(Req(Request(Sync, 0, Uint32ToBytes(currentZxid))), leader);
    }

    method ProcessProposal(p: Proposal, source: string)
      requires Valid() && Fits(p)
      modifies this, store
      ensures Valid() && State() == OnProposal(old(State()), p, source)
    {
      var leader := coordinator;
      assert leader == State().coordinator;
      hide State, Valid, OnStateChange, OnCommit, OnNewLeader;
      if leader != source {
        return;
      }
      if p.kind == STATE_CHANGE {
        ProcessStateChangeProposal(p, source);
      } else if p.kind == COMMIT {
        ProcessCommitProposal();
      } else if p.kind == NEW_LEADER {
        ProcessNewLeaderProposal(p, source);
      } else {
        Fatal();
      }
    }

    // ---- Acknowledgements ----

    /** Moves the held requests to the processing queue, one by one. */
    method UnloadHoldingQueue()
      requires Valid()
      modifies this
      ensures Valid()
      ensures State() == old(State()).(inbox := old(State()).inbox + old(State()).holding, holding := [])
    {
      hide Valid, State;
      ghost var s := State();
      var some := IsHolding();
      while some
        invariant Valid() && some == (State().holding != [])
        invariant State() == s.(inbox := State().inbox, holding := State().holding)
        invariant State().inbox + State().holding == s.inbox + s.holding
        decreases |State().holding|
      {
        var req := DequeueHeld();
        EnqueueZabMessage(req);
        some := IsHolding();
      }
    }

    method IsHolding() returns (some: bool)
      requires Valid()
      ensures some == (State().holding != [])
    {
      some := holdingQueue != [];
    }

    /** One NewLeader acknowledgement less to wait for. */
    method DecrementResponses() returns (left: int)
      requires Valid()
      modifies this
      ensures Valid() && left == old(State()).waiting - 1 && State() == old(State()).(waiting := left)
    {
      syncResponses := syncResponses - 1;
      left := syncResponses;
    }

    method OpenProcessing()
      requires Valid()
      modifies this
      ensures Valid() && State() == old(State()).(processing := true, syncing := false)
    {
      processing, syncing := true, false;
    }

    method CountACK(zxid: uint32) returns (quorum: bool)
      requires Valid()
      modifies ackCounter
      ensures Valid()
      ensures (State().acks, quorum) == Incremented(old(State()).acks, zxid, systems / 2)
      ensures State() == old(State()).(acks := State().acks)
    {
      quorum := ackCounter.IncrementOrRemove(zxid, systems / 2);
    }

    method ProcessACK(p: Proposal)
      requires Valid()
      modifies this, ackCounter
      ensures Valid() && State() == OnAck(old(State()), p, systems)
    {
      var active, sync := !processing, currentSync;
      assert active == !State().processing && sync == State().currentSync;
      hide State, Valid, Incremented, OnCommit;
      if p.kind == NEW_LEADER {
        if active && p.count == sync.count && p.epoch == sync.epoch {
          var left := DecrementResponses();
          if left == 0 {
            OpenProcessing();
            UnloadHoldingQueue();
          }
        } else {
          return;
        }
      }
      var quorum := CountACK(Compose(p.epoch, p.count));
      if quorum {
        ProcessCommitProposal();
        if !IsStopped() {
          QueueBroadcast(COMMIT_MSG);
        }
      }
    }

    function IsStopped(): (b: bool)
      reads this, ackCounter
      ensures b == State().stopped
    {
      stopped
    }

    // ---- Requests ----

    method StoreNew(zxid: uint32)
      requires Valid()
      modifies ackCounter
      ensures Valid() && State() == old(State()).(acks := Stored(old(State()).acks, zxid))
    {
      ackCounter.StoreNew(zxid);
    }

    method ProcessWrite(req: Request, remote: string, verdict: Verdict)
      requires Valid() && (verdict.Accepted? ==> HEADER + |verdict.content| < 0x1_0000_0000)
      modifies this, ackCounter, store
      ensures Valid() && State() == OnWrite(old(State()), req, remote, verdict)
    {
      assert name == State().name;
      hide State, Valid, Send, Stored;
      match verdict {
        case Denied(content) =>
          if name == remote {
            return;
          }
          QueueSend(Err(req.(content := content)), remote);
        case Accepted(content) =>
          var e, c := IncCount();
          StoreNew(Compose(e, c));
          var prop := Proposal(STATE_CHANGE, e, c, content);
          EnqueueProposal(prop);
          QueueWriteProposal(prop);
          QueueBroadcast(Prop(prop));
      }
    }

    method SendProposals(ps: seq<Proposal>, remote: string)
      requires Valid()
      modifies this`messageQueue, this`sendingQueue
      ensures Valid() && State() == SendAll(old(State()), AsMessages(ps), remote)
    {
      hide State, Valid, SendAll, AsMessages, Send;
      NoneSent(State(), ps, remote);
      for i := 0 to |ps|
        invariant Valid() && State() == SendAll(old(State()), AsMessages(ps[..i]), remote)
      {
        OneMoreSent(old(State()), ps, i, remote);
        QueueSend(Prop(ps[i]), remote);
      }
      assert ps[..|ps|] == ps;
    }

    /** Sends the latest `lacking` proposals of one epoch, or an error notice. */
    method SendEpoch(epoch: uint16, lacking: int, req: Request, remote: string)
      requires Valid()
      modifies this`messageQueue, this`sendingQueue
      ensures Valid()
      ensures State() == SendAll(old(State()), EpochReply(EpochRecords(saved, epoch), lacking, req), remote)
    {
      ReadsRecords(store.files, saved, epoch, lacking);
      var proposalsToSend := store.ReadProposals(epoch, lacking);
      match proposalsToSend {
        case Failed =>
          SendOne(old(State()), SyncErr(req), remote);
          QueueSend(SyncErr(req), remote);
        case Ok(ps) =>
          SendProposals(ps, remote);
      }
    }

    /** How many proposals of an epoch are stored; if that cannot be read, an error notice is sent. */
    method HighestOrNotice(epoch: uint16, req: Request, remote: string) returns (numProposals: int)
      requires Valid()
      modifies this`messageQueue, this`sendingQueue
      ensures Valid() && numProposals == HighestCount(EpochRecords(saved, epoch))
      ensures State() == SendAll(old(State()), NoticeIfUnreadable(EpochRecords(saved, epoch), req), remote)
    {
      ReadsRecords(store.files, saved, epoch, 1);
      hide Represents, AllFit, EpochRecords, Uint32ToBytes;
      var highest := store.GetEpochHighestCount(epoch);
      match highest {
        case Failed =>
          SendOne(old(State()), SyncErr(req), remote);
          QueueSend(SyncErr(req), remote);
          numProposals := 0;
        case Ok(c) =>
          SendNone(old(State()), remote);
          numProposals := c;
      }
    }

    /** An earlier epoch: how much is lacking depends on its highest stored count. */
    method SendEarlierEpoch(epoch: uint16, count: uint16, req: Request, remote: string)
      requires Valid()
      modifies this`messageQueue, this`sendingQueue
      ensures Valid()
      ensures State() == SendAll(old(State()), EarlierEpoch(EpochRecords(saved, epoch), count, req), remote)
    {
      hide State, Valid, EpochRecords, EpochReply, SendAll, HighestCount;
      ghost var records, s := EpochRecords(saved, epoch), State();
      var numProposals := HighestOrNotice(epoch, req, remote);
      SendEpoch(epoch, numProposals - count, req, remote);
      SendAllAppend(s, NoticeIfUnreadable(records, req), EpochReply(records, HighestCount(records) - count, req), remote);
    }

    /** Everything after the given zxid, epoch by epoch. */
    method SendMissing(from: uint16, count: uint16, highestEpoch: uint16, highestCount: uint16, req: Request, remote: string)
      requires Valid() && from <= highestEpoch
      modifies this`messageQueue, this`sendingQueue
      ensures Valid()
      ensures State() == SendAll(old(State()), ReplyFrom(saved, from, count, highestEpoch, highestCount, req), remote)
    {
      hide State, Valid, EpochRecords, ReplyFrom, EarlierEpoch, EpochReply, SendAll;
      var e: uint16, c: uint16 := from, count;
      ghost var s, all, sent := State(), saved, [];
      ghost var reply := ReplyFrom(all, e, c, highestEpoch, highestCount, req);
      SendNone(s, remote);
      while e < highestEpoch
        invariant e <= highestEpoch && Valid()
        invariant State() == SendAll(s, sent, remote)
        invariant sent + ReplyFrom(all, e, c, highestEpoch, highestCount, req) == reply
      {
        ghost var part := EarlierEpoch(EpochRecords(all, e), c, req);
        SendAllAppend(s, sent, part, remote);
        ReplyStep(all, e, c, highestEpoch, highestCount, req);
        SendEarlierEpoch(e, c, req, remote);
        Regroup(sent, part, ReplyFrom(all, e + 1, 0, highestEpoch, highestCount, req));
        sent := sent + part;
        e, c := e + 1, 0;
      }
      ReplyStep(all, e, c, highestEpoch, highestCount, req);
      SendAllAppend(s, sent, EpochReply(EpochRecords(all, e), highestCount - c, req), remote);
      SendEpoch(highestEpoch, highestCount - c, req, remote);
    }

    /** Answers a sync request. */
    method ProcessSync(req: Request, remote: string)
      requires Valid()
      modifies this`messageQueue, this`sendingQueue, this`stopped
      ensures Valid() && State() == OnSync(old(State()), req, remote)
    {
      if |req.content| < 4 {
        stopped := true;
        return;
      }
      var highestEpoch, highestCount := epoch, count;
      ghost var s := State();
      assert s.epoch == highestEpoch && s.count == highestCount && s.saved == saved;
      hide State, Valid, EpochRecords, ReplyFrom, SendAll, Decompose, BytesToUint32;
      var (sentEpoch, sentCount) := Decompose(BytesToUint32(req.content));
      if sentEpoch > highestEpoch {
        SendOne(s, SyncErr(req), remote);
        QueueSend(SyncErr(req), remote);
        return;
      }
      SendMissing(sentEpoch, sentCount, highestEpoch, highestCount, req, remote);
    }

    // ---- Messages ----

    /** One message from the network or from the node itself. */
    method ProcessZabMessage(net: NetMsg, verdict: Verdict)
      requires Valid() && (net.msg.Prop? ==> Fits(net.msg.prop))
      requires verdict.Accepted? ==> HEADER + |verdict.content| < 0x1_0000_0000
      modifies this, ackCounter, store
      ensures Valid() && State() == Process(old(State()), net, verdict, systems)
    {
      match net.msg {
        case Req(req) =>
          if processing || req.kind == Sync {
            if req.kind == Sync {
              ProcessSync(req, net.remote);
            } else {
              ProcessWrite(req, net.remote, verdict);
            }
          } else {
            holdingQueue := holdingQueue + [net];
          }
        case Prop(p) => ProcessProposal(p, net.remote);
        case Ack(p) => ProcessACK(p);
        case Err(req) => failed := failed + [req];
        case SyncErr(_) =>
      }
    }

    /** The message processor takes the next message of the node's own queue. */
    method ProcessNext(verdict: Verdict)
      requires Valid() && messageQueue != [] && (messageQueue[0].msg.Prop? ==> Fits(messageQueue[0].msg.prop))
      requires verdict.Accepted? ==> HEADER + |verdict.content| < 0x1_0000_0000
      modifies this, ackCounter, store
      ensures Valid() && State() == ProcessInbox(old(State()), verdict, systems)
    {
      var net := messageQueue[0];
      messageQueue := messageQueue[1..];
      ProcessZabMessage(net, verdict);
    }

    /** A server's own write goes to the coordinator, or to its own queue if it leads. */
    method SendWriteRequest(content: seq<byte>, num: int)
      requires Valid()
      modifies this
      ensures Valid() && State() == SubmitWrite(old(State()), num, content)
    {
      QueueSend(Req(Request(Write, num, content)), coordinator);
    }
  }
}
