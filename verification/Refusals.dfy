/** What a node does with messages it cannot use, and how a denied write gets back to its sender. */
module Refusals {
  import opened Zxid
  import opened Messages
  import opened AckCounting
  import opened ZabNode
  import SyncReply

  // ---- Denied writes ----

  /** A write that the check denies is sent back to the server it came from, under its number and with
      the check's answer; the leader's own is dropped. Nothing else happens. */
  lemma DeniedGoesBack(ld: Node, num: int, content: seq<byte>, remote: string, answer: seq<byte>, systems: nat)
    requires ld.processing
    ensures var ld' := Process(ld, NetMsg(remote, Req(Request(Write, num, content))), Denied(answer), systems);
            ld' == if remote == ld.name then ld else ld.(outbox := ld.outbox + [To(remote, Err(Request(Write, num, answer)))])
  {
  }

  /** There it joins the failed requests, which is how the client learns of it. */
  lemma DenialArrives(f: Node, remote: string, num: int, answer: seq<byte>, verdict: Verdict, systems: nat)
    ensures Process(f, NetMsg(remote, Err(Request(Write, num, answer))), verdict, systems)
      == f.(failed := f.failed + [Request(Write, num, answer)])
  {
  }

  /** A write reaches the coordinator under its number, whoever submits it. */
  lemma SubmittedUnchanged(n: Node, num: int, content: seq<byte>)
    ensures var m := Req(Request(Write, num, content));
            SubmitWrite(n, num, content) ==
              if n.coordinator == n.name then n.(inbox := n.inbox + [NetMsg(n.name, m)])
              else n.(outbox := n.outbox + [To(n.coordinator, m)])
  {
  }

  // ---- Messages that change nothing ----

  /** What anybody but the coordinator proposes, commits or announces changes nothing at a node. */
  lemma StrangersChangeNothing(n: Node, p: Proposal, source: string, verdict: Verdict, systems: nat)
    requires n.coordinator != source
    ensures Process(n, NetMsg(source, Prop(p)), verdict, systems) == n
  {
  }

  /** An acknowledgement of NewLeader counts only while requests are not processed, and only for the sync
      that is going on. */
  lemma StaleAckChangesNothing(n: Node, p: Proposal, remote: string, verdict: Verdict, systems: nat)
    requires p.kind == NEW_LEADER && (n.processing || p.Id() != n.currentSync.Id())
    ensures Process(n, NetMsg(remote, Ack(p)), verdict, systems) == n
  {
    ComposeOrder(p.epoch, p.count, n.currentSync.epoch, n.currentSync.count);
    hide Compose, Incremented;
  }

  /** Nor does an error notice about a sync. */
  lemma NoticeChangesNothing(n: Node, req: Request, remote: string, verdict: Verdict, systems: nat)
    ensures Process(n, NetMsg(remote, SyncErr(req)), verdict, systems) == n
  {
  }

  // ---- Messages that stop a node ----

  /** The acknowledgement completes a quorum. */
  predicate Completes(n: Node, p: Proposal, systems: nat) {
    && (p.kind == NEW_LEADER ==> !n.processing && p.epoch == n.currentSync.epoch && p.count == n.currentSync.count)
    && p.Id() in n.acks && n.acks[p.Id()] + 1 > systems / 2
  }

  /** A node stops on a commit for which it has nothing queued, on a zxid of fewer than four bytes, and on
      a proposal of an unknown kind. */
  predicate IsFatal(n: Node, net: NetMsg, systems: nat) {
    match net.msg
    case Req(req) => req.kind == Sync && |req.content| < 4
    case Prop(p) =>
      n.coordinator == net.remote &&
      (if p.kind == COMMIT then n.queue == []
       else if p.kind == NEW_LEADER then |p.content| < 4
       else p.kind != STATE_CHANGE)
    case Ack(p) => Completes(n, p, systems) && n.queue == []
    case _ => false
  }

  lemma WhenNodeStops(n: Node, net: NetMsg, verdict: Verdict, systems: nat)
    ensures Process(n, net, verdict, systems).stopped <==> n.stopped || IsFatal(n, net, systems)
    ensures IsFatal(n, net, systems) ==> Process(n, net, verdict, systems).outbox == n.outbox
  {
    hide OnProposal, OnAck, OnRequest;
    match net.msg
    case Req(req) => RequestStops(n, req, net.remote, verdict);
    case Prop(p) => ProposalStops(n, p, net.remote);
    case Ack(p) => AckStops(n, p, systems);
    case _ =>
  }

  lemma RequestStops(n: Node, req: Request, remote: string, verdict: Verdict)
    ensures OnRequest(n, req, remote, verdict).stopped <==> n.stopped || (req.kind == Sync && |req.content| < 4)
    ensures req.kind == Sync && |req.content| < 4 ==> OnRequest(n, req, remote, verdict).outbox == n.outbox
  {
    hide SyncReply.Reply;
    if req.kind == Sync && |req.content| >= 4 { SendingGoesOn(n, SyncReply.Reply(n.saved, n.epoch, n.count, req), remote); }
  }

  lemma ProposalStops(n: Node, p: Proposal, source: string)
    ensures OnProposal(n, p, source).stopped <==> n.stopped || IsFatal(n, NetMsg(source, Prop(p)), 0)
    ensures IsFatal(n, NetMsg(source, Prop(p)), 0) ==> OnProposal(n, p, source).outbox == n.outbox
  {
    hide OnStateChange, OnNewLeader;
    StateChangeGoesOn(n, p, source);
    NewLeaderStops(n, p, source);
  }

  lemma StateChangeGoesOn(n: Node, p: Proposal, source: string)
    ensures OnStateChange(n, p, source).stopped == n.stopped
  {
    hide Compose;
  }

  lemma NewLeaderStops(n: Node, p: Proposal, source: string)
    ensures OnNewLeader(n, p, source).stopped <==> n.stopped || |p.content| < 4
    ensures |p.content| < 4 ==> OnNewLeader(n, p, source).outbox == n.outbox
  {
    hide BytesToUint32, Uint32ToBytes, Compose;
  }

  lemma AckStops(n: Node, p: Proposal, systems: nat)
    ensures OnAck(n, p, systems).stopped <==> n.stopped || (Completes(n, p, systems) && n.queue == [])
    ensures Completes(n, p, systems) && n.queue == [] ==> OnAck(n, p, systems).outbox == n.outbox
  {
    hide CountAck, OnNewLeaderAck, Compose;
    AnsweredGoesOn(n);
    CountStops(n, p, systems);
    CountStops(OnNewLeaderAck(n), p, systems);
  }

  lemma AnsweredGoesOn(n: Node)
    ensures var m := OnNewLeaderAck(n); m.acks == n.acks && m.queue == n.queue && m.stopped == n.stopped && m.outbox == n.outbox
  {
  }

  lemma CountStops(n: Node, p: Proposal, systems: nat)
    ensures var quorum := p.Id() in n.acks && n.acks[p.Id()] + 1 > systems / 2;
            && (CountAck(n, p, systems).stopped <==> n.stopped || (quorum && n.queue == []))
            && (quorum && n.queue == [] ==> CountAck(n, p, systems).outbox == n.outbox)
  {
    hide Compose;
  }

  lemma {:induction false} SendingGoesOn(n: Node, ms: seq<ZabMsg>, target: string)
    ensures SendAll(n, ms, target).stopped == n.stopped
  {
    if ms != [] { SendingGoesOn(n, ms[..|ms| - 1], target); }
  }

  // ---- A leader that starts again ----

  /** A leader whose announcement has not been answered by everybody repeats it: same epoch, same proposal,
      and it waits for all answers again; a cluster in which nothing was ever proposed starts at once. */
  lemma AnnouncesAgain(n: Node, addresses: nat)
    ensures n.Id() == 0 ==> SendNewLeader(n, addresses) == n.(syncing := false, processing := true)
    ensures n.Id() != 0 && n.syncing ==>
      SendNewLeader(n, addresses)
        == n.(waiting := addresses - 1, saved := n.saved + [n.currentSync], outbox := n.outbox + [Broadcast(Prop(n.currentSync))])
  {
  }
}
