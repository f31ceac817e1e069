/** What holds of the leader during its term, and that handling requests and acknowledgements
    keeps it. */
module LeaderSteps {
  import opened Zxid
  import opened Messages
  import opened Channel
  import opened SyncReply
  import opened ProposalLog
  import opened AckCounting
  import opened ZabNode
  import opened FollowerSteps
  import opened Collections

  /** The followers known to have the k-th proposal of the term, from how many each has
      acknowledged. */
  function Ackers(acked: map<string, int>, k: int): set<string> {
    set i | i in acked && acked[i] >= k
  }

  /** The value of the acknowledgement counter after `n` acknowledgements: it starts at 1 and
      restarts from 0 when it passes the threshold. */
  function Tally(n: nat, threshold: nat): int {
    if n < threshold then n + 1 else n - threshold
  }

  predicate AllWrites(ms: seq<NetMsg>) {
    forall j :: 0 <= j < |ms| ==> ms[j].msg.Req? && ms[j].msg.req.kind == Write
  }

  /** The proposals of the term carry the leader's epoch and counts 1, 2, ... */
  ghost predicate CountsInOrder(v: View, ld: Node) {
    && 0 <= v.base <= |v.log|
    && (forall j :: v.base <= j < |v.log| ==> v.log[j].epoch == ld.epoch && v.log[j].count == j - v.base + 1)
    && (v.base > 0 ==> v.log[v.base - 1].epoch < ld.epoch)
  }

  /** The counters agree with the acknowledgements, and exactly the first `fired` proposals of the
      term have reached a quorum. */
  ghost predicate Counted(v: View, ld: Node, acked: map<string, int>, systems: nat) {
    && Compose(ld.epoch, 0) !in ld.acks
    && (forall k: uint16 :: 1 <= k <= ld.count ==>
         && Compose(ld.epoch, k) in ld.acks
         && ld.acks[Compose(ld.epoch, k)] == Tally(|Ackers(acked, k)|, systems / 2)
         && (|Ackers(acked, k)| >= systems / 2 <==> k <= v.fired))
    && (forall i <- acked :: acked[i] <= ld.count)
  }

  ghost predicate LeaderLog(v: View, ld: Node, lag: nat) {
    && WellSaved(ld.saved) && v.log == Log(ld)
    && v.base == |v.log| - ld.count && lag <= v.base
    && v.fired == |ld.committed| - (v.base - lag)
    && ld.committed + ld.queue == v.log
    && CountsInOrder(v, ld)
  }

  ghost predicate Leader(v: View, ld: Node, lag: nat, acked: map<string, int>, outstanding: nat, systems: nat) {
    && ViewOk(v)
    && ld.name == v.leader == ld.coordinator && !ld.stopped
    && v.open == ld.processing && v.nl == ld.currentSync
    && LeaderLog(v, ld, lag)
    && |acked| < systems && systems >= 2
    && Counted(v, ld, acked, systems)
    && (!v.open ==> ld.waiting == outstanding && v.nl.epoch == ld.epoch)
    && AllWrites(ld.inbox) && AllWrites(ld.holding) && (v.open ==> ld.holding == [])
  }

  /** One more acknowledgement from `i` adds it to exactly one set of ackers. */
  lemma AckersGrow(acked: map<string, int>, i: string, k: int)
    requires i in acked
    ensures var acked' := acked[i := acked[i] + 1];
            && Ackers(acked', k) == Ackers(acked, k) + (if k == acked[i] + 1 then {i} else {})
            && |Ackers(acked', k)| == |Ackers(acked, k)| + (if k == acked[i] + 1 then 1 else 0)
  {
    var acked' := acked[i := acked[i] + 1];
    assert Ackers(acked', k) == Ackers(acked, k) + (if k == acked[i] + 1 then {i} else {});
    if k == acked[i] + 1 {
      assert i !in Ackers(acked, k);
    }
  }

  lemma AckersShrink(acked: map<string, int>, j: int, k: int)
    requires j <= k
    ensures Ackers(acked, k) <= Ackers(acked, j) && |Ackers(acked, k)| <= |Ackers(acked, j)| <= |acked|
  {
    SubsetSize(Ackers(acked, k), Ackers(acked, j));
    SubsetSize(Ackers(acked, j), acked.Keys);
  }

  /** Quorums complete in log order: an acknowledgement that completes the quorum of the k-th
      proposal of a term finds all earlier ones complete and no later one. */
  lemma QuorumInOrder(v: View, ld: Node, acked: map<string, int>, systems: nat, i: string)
    requires ViewOk(v) && Counted(v, ld, acked, systems) && v.base == |v.log| - ld.count
    requires i in acked && 0 <= acked[i] < ld.count && |acked| < systems && systems >= 2
    ensures var k := acked[i] + 1;
            var quorum := Incremented(ld.acks, Compose(ld.epoch, k), systems / 2).1;
            && (quorum <==> |Ackers(acked, k)| + 1 == systems / 2)
            && (quorum ==> k == v.fired + 1)
  {
    var k, t := acked[i] + 1, systems / 2;
    var acked' := acked[i := k];
    AckersGrow(acked, i, k);
    AckersShrink(acked', k, k);
    if |Ackers(acked, k)| + 1 == t && k > 1 {
      AckersGrow(acked, i, k - 1);
      AckersShrink(acked', k - 1, k);
    }
  }

  /** Counting one acknowledgement keeps the counters in agreement. */
  lemma CountedStep(v: View, ld: Node, acked: map<string, int>, systems: nat, i: string, v': View, ld': Node)
    requires ViewOk(v) && Counted(v, ld, acked, systems) && v.base == |v.log| - ld.count
    requires i in acked && 0 <= acked[i] < ld.count && |acked| < systems && systems >= 2
    requires var (acks, quorum) := Incremented(ld.acks, Compose(ld.epoch, acked[i] + 1), systems / 2);
             ld'.acks == acks && ld'.epoch == ld.epoch && ld'.count == ld.count &&
             v'.fired == if quorum then v.fired + 1 else v.fired
    ensures Counted(v', ld', acked[i := acked[i] + 1], systems)
  {
    hide ViewOk, Ackers, Tally, Incremented;
    IncrementedKeys(ld.acks, Compose(ld.epoch, acked[i] + 1), systems / 2);
    forall k: uint16 | 1 <= k <= ld.count
      ensures Compose(ld.epoch, k) in ld'.acks
      ensures ld'.acks[Compose(ld.epoch, k)] == Tally(|Ackers(acked[i := acked[i] + 1], k)|, systems / 2)
      ensures |Ackers(acked[i := acked[i] + 1], k)| >= systems / 2 <==> k <= v'.fired
    {
      CountedOne(v, ld, acked, systems, i, v', ld', k);
    }
  }

  lemma IncrementedKeys(t: Tracker, zxid: uint32, maxCount: int)
    ensures Incremented(t, zxid, maxCount).0.Keys == t.Keys
  {
  }

  /** The counter of one proposal. */
  lemma CountedOne(v: View, ld: Node, acked: map<string, int>, systems: nat, i: string, v': View, ld': Node, k: uint16)
    requires ViewOk(v) && Counted(v, ld, acked, systems) && v.base == |v.log| - ld.count
    requires i in acked && 0 <= acked[i] < ld.count && |acked| < systems && systems >= 2 && 1 <= k <= ld.count
    requires var (acks, quorum) := Incremented(ld.acks, Compose(ld.epoch, acked[i] + 1), systems / 2);
             ld'.acks == acks && ld'.epoch == ld.epoch && ld'.count == ld.count &&
             v'.fired == if quorum then v.fired + 1 else v.fired
    ensures Compose(ld.epoch, k) in ld'.acks
    ensures ld'.acks[Compose(ld.epoch, k)] == Tally(|Ackers(acked[i := acked[i] + 1], k)|, systems / 2)
    ensures |Ackers(acked[i := acked[i] + 1], k)| >= systems / 2 <==> k <= v'.fired
  {
    hide ViewOk, Ackers, Compose;
    QuorumInOrder(v, ld, acked, systems, i);
    AckersGrow(acked, i, k);
    AckersShrink(acked[i := acked[i] + 1], k, k);
    ComposeOrder(ld.epoch, k, ld.epoch, acked[i] + 1);
  }

  function ViewOf(ld: Node, lag: nat): View {
    var log := Log(ld);
    View(ld.name, log, |log| - ld.count, |ld.committed| - (|log| - ld.count - lag), ld.processing, ld.currentSync)
  }

  /** An acknowledgement of a state change: if it completes a quorum, the head of the queue is
      committed and COMMIT is broadcast. */
  lemma AckEffect(v: View, ld: Node, lag: nat, acked: map<string, int>, outstanding: nat, systems: nat, i: string, verdict: Verdict)
    requires Leader(v, ld, lag, acked, outstanding, systems)
    requires i in acked && 0 <= acked[i] < ld.count
    ensures var p := v.log[v.base + acked[i]];
            var ld' := Process(ld, NetMsg(i, Ack(p)), verdict, systems);
            var (acks, quorum) := Incremented(ld.acks, Compose(ld.epoch, acked[i] + 1), systems / 2);
            && v.open
            && (quorum ==> ld.queue != [] && acked[i] + 1 == v.fired + 1)
            && ld' == if quorum then
                        ld.(acks := acks, queue := ld.queue[1..], committed := ld.committed + [ld.queue[0]],
                            outbox := ld.outbox + [Broadcast(COMMIT_MSG)])
                      else ld.(acks := acks)
  {
    hide WellSaved, StateChanges, Dense;
    QuorumInOrder(v, ld, acked, systems, i);
    DenseEntry(v.log, v.base + acked[i]);
  }

  lemma AckStep(v: View, ld: Node, lag: nat, acked: map<string, int>, outstanding: nat, systems: nat, i: string, verdict: Verdict)
    requires Leader(v, ld, lag, acked, outstanding, systems)
    requires i in acked && 0 <= acked[i] < ld.count
    ensures var p := v.log[v.base + acked[i]];
            var ld' := Process(ld, NetMsg(i, Ack(p)), verdict, systems);
            var v' := ViewOf(ld', lag);
            && v.open && Leader(v', ld', lag, acked[i := acked[i] + 1], outstanding, systems)
            && ((v' == v && ld'.outbox == ld.outbox) ||
                (v' == v.(fired := v.fired + 1) && ld'.outbox == ld.outbox + [Broadcast(COMMIT_MSG)]))
  {
    hide WellSaved, StateChanges, Dense, Process;
    var p := v.log[v.base + acked[i]];
    var ld' := Process(ld, NetMsg(i, Ack(p)), verdict, systems);
    AckEffect(v, ld, lag, acked, outstanding, systems, i, verdict);
    var v' := ViewOf(ld', lag);
    CountedStep(v, ld, acked, systems, i, v', ld');
    hide Counted;
    assert ld'.committed + ld'.queue == v.log;
  }

  // ---- Opening the term ----

  lemma NewLeaderAckEffect(ld: Node, remote: string, verdict: Verdict, systems: nat)
    requires !ld.processing && ld.currentSync.kind == NEW_LEADER && ld.currentSync.Id() !in ld.acks
    ensures var open := ld.waiting == 1;
            Process(ld, NetMsg(remote, Ack(ld.currentSync)), verdict, systems)
              == ld.(waiting := ld.waiting - 1, processing := open, syncing := if open then false else ld.syncing,
                     inbox := if open then ld.inbox + ld.holding else ld.inbox,
                     holding := if open then [] else ld.holding)
  {
  }

  /** An acknowledgement of NewLeader; the last one opens the term and hands over the requests
      held meanwhile, each once and in the order they arrived. */
  lemma NewLeaderAckStep(v: View, ld: Node, lag: nat, acked: map<string, int>, outstanding: nat, systems: nat,
                         remote: string, verdict: Verdict)
    requires Leader(v, ld, lag, acked, outstanding, systems) && !v.open && outstanding > 0
    ensures var ld' := Process(ld, NetMsg(remote, Ack(v.nl)), verdict, systems);
            var open := outstanding == 1;
            && ld' == ld.(waiting := outstanding - 1, processing := open, syncing := if open then false else ld.syncing,
                          inbox := if open then ld.inbox + ld.holding else ld.inbox,
                          holding := if open then [] else ld.holding)
            && ViewOf(ld', lag) == v.(open := open)
  {
    hide WellSaved, StateChanges, Dense, Process;
    NewLeaderAckEffect(ld, remote, verdict, systems);
  }

  /** Acknowledging NewLeader adds nobody to the ackers of a proposal. */
  lemma CountedNewLeader(v: View, ld: Node, acked: map<string, int>, systems: nat, i: string, v': View, ld': Node)
    requires Counted(v, ld, acked, systems) && i in acked && acked[i] < 0
    requires ld'.acks == ld.acks && ld'.epoch == ld.epoch && ld'.count == ld.count && v'.fired == v.fired
    ensures Counted(v', ld', acked[i := acked[i] + 1], systems)
  {
    var acked', t := acked[i := acked[i] + 1], systems / 2;
    forall k: uint16 | 1 <= k <= ld.count
      ensures Compose(ld.epoch, k) in ld'.acks
      ensures ld'.acks[Compose(ld.epoch, k)] == Tally(|Ackers(acked', k)|, t)
      ensures |Ackers(acked', k)| >= t <==> k <= v'.fired
    {
      assert Ackers(acked', k) == Ackers(acked, k);
    }
    assert forall j <- acked' :: acked'[j] <= ld'.count;
  }

  lemma NewLeaderAckKeeps(v: View, ld: Node, lag: nat, acked: map<string, int>, outstanding: nat, systems: nat,
                          i: string, verdict: Verdict)
    requires Leader(v, ld, lag, acked, outstanding, systems) && !v.open && outstanding > 0
    requires i in acked && acked[i] < 0
    ensures var ld' := Process(ld, NetMsg(i, Ack(v.nl)), verdict, systems);
            Leader(v.(open := outstanding == 1), ld', lag, acked[i := acked[i] + 1], outstanding - 1, systems)
  {
    hide WellSaved, StateChanges, Dense, Process;
    var ld' := Process(ld, NetMsg(i, Ack(v.nl)), verdict, systems);
    var v' := v.(open := outstanding == 1);
    NewLeaderAckStep(v, ld, lag, acked, outstanding, systems, i, verdict);
    CountedNewLeader(v, ld, acked, systems, i, v', ld');
    hide Counted;
    assert CountsInOrder(v', ld');
  }

  // ---- Requests ----

  lemma {:induction false} SendAllEffect(n: Node, ms: seq<ZabMsg>, target: string)
    requires target != n.name
    ensures SendAll(n, ms, target) == n.(outbox := n.outbox + Addressed(ms, target))
  {
    if ms == [] {
      assert n.outbox + [] == n.outbox;
    } else {
      var init, last := ms[..|ms| - 1], ms[|ms| - 1];
      hide Addressed;
      SendAllEffect(n, init, target);
      AddressedAppend(init, last, target);
      assert init + [last] == ms;
      Regroup(n.outbox, Addressed(init, target), [To(target, last)]);
    }
  }

  lemma {:induction false} AddressedAppend(ms: seq<ZabMsg>, m: ZabMsg, target: string)
    ensures Addressed(ms + [m], target) == Addressed(ms, target) + [To(target, m)]
  {
    if ms == [] {
      AddressedOne(m, target);
      assert ms + [m] == [m];
    } else {
      assert (ms + [m])[1..] == ms[1..] + [m];
      AddressedAppend(ms[1..], m, target);
    }
  }

  /** How many state changes of the log belong to the leader's epoch. */
  lemma {:induction false} OwnEpoch(v: View, ld: Node, n: nat)
    requires Dense(v.log) && CountsInOrder(v, ld) && v.base == |v.log| - ld.count && n <= |v.log|
    ensures |EpochRecords(v.log[..n], ld.epoch)| == if n <= v.base then 0 else n - v.base
    ensures forall j :: 0 <= j < n ==> v.log[j].epoch <= ld.epoch
  {
    hide Dense, EpochRecords;
    RecordsStep(v.log[..n], ld.epoch);
    if n > 0 {
      OwnEpoch(v, ld, n - 1);
      var last := n - 1;
      assert v.log[..n][..last] == v.log[..last];
      if last < v.base - 1 {
        DenseIncreasing(v.log, last, v.base - 1);
      }
    }
  }

  /** A follower's request for the rest of the log is answered with exactly that. */
  lemma SyncStep(v: View, ld: Node, lag: nat, acked: map<string, int>, outstanding: nat, systems: nat,
                 i: string, req: Request, n: nat, verdict: Verdict)
    requires Leader(v, ld, lag, acked, outstanding, systems) && i != ld.name
    requires req.kind == Sync && n <= |v.log| && req.content == Uint32ToBytes(LastId(v.log[..n]))
    ensures var ld' := Process(ld, NetMsg(i, Req(req)), verdict, systems);
            var reply := Reply(ld.saved, ld.epoch, ld.count, req);
            && ld' == ld.(outbox := ld.outbox + Addressed(reply, i))
            && Carried(reply) == v.log[n..] && OnlyStateChanges(reply)
  {
    hide WellSaved, StateChanges, Dense, Reply, Counted;
    SendAllEffect(ld, Reply(ld.saved, ld.epoch, ld.count, req), i);
    OwnEpoch(v, ld, |v.log|);
    assert v.log[..|v.log|] == v.log;
    ReplyIsMissingSuffix(ld.saved, ld.epoch, ld.count, n, req);
  }

  /** A write arriving before the term is open is held; a denied one changes nothing but the
      reply. */
  lemma WriteNotProposed(v: View, ld: Node, lag: nat, acked: map<string, int>, outstanding: nat, systems: nat,
                         remote: string, req: Request, verdict: Verdict)
    requires Leader(v, ld, lag, acked, outstanding, systems) && req.kind == Write
    requires !v.open || verdict.Denied?
    ensures var ld' := Process(ld, NetMsg(remote, Req(req)), verdict, systems);
            && (!v.open ==> ld' == ld.(holding := ld.holding + [NetMsg(remote, Req(req))]))
            && (v.open ==> ld' == if remote == ld.name then ld
                                  else ld.(outbox := ld.outbox + [To(remote, Err(req.(content := verdict.content)))]))
  {
    hide WellSaved, StateChanges, Dense, Counted;
  }

  /** Only the queues of requests and messages differ. */
  predicate SameBut(ld: Node, ld': Node) {
    ld' == ld.(holding := ld'.holding, inbox := ld'.inbox, outbox := ld'.outbox)
  }

  lemma QueuesDoNotMatter(v: View, ld: Node, lag: nat, acked: map<string, int>, outstanding: nat, systems: nat, ld': Node)
    requires Leader(v, ld, lag, acked, outstanding, systems) && SameBut(ld, ld')
    requires AllWrites(ld'.inbox) && AllWrites(ld'.holding) && (v.open ==> ld'.holding == [])
    ensures Leader(v, ld', lag, acked, outstanding, systems) && ViewOf(ld', lag) == v
  {
    hide WellSaved, StateChanges, Dense;
  }

  /** The proposal an accepted write becomes. */
  function NextProposal(ld: Node, content: seq<byte>): Proposal {
    Proposal(STATE_CHANGE, ld.epoch, Increment(ld.count), content)
  }

  lemma ProposalFitsLog(v: View, ld: Node, lag: nat, content: seq<byte>)
    requires ViewOk(v) && LeaderLog(v, ld, lag)
    requires ld.count < 0xFFFF && Encodable(NextProposal(ld, content))
    ensures var p := NextProposal(ld, content);
            && StateChanges(ld.saved + [p]) == v.log + [p] && WellSaved(ld.saved + [p]) && Dense(v.log + [p])
  {
    hide StateChanges, Dense, WellSaved;
    var p := NextProposal(ld, content);
    assert v.log != [] ==> Follows(v.log[|v.log| - 1], p);
    WellSavedAppend(ld.saved, p);
    WellSavedDense(ld.saved + [p]);
  }

  lemma ProposeEffect(v: View, ld: Node, lag: nat, acked: map<string, int>, outstanding: nat, systems: nat,
                      remote: string, req: Request, content: seq<byte>)
    requires Leader(v, ld, lag, acked, outstanding, systems) && req.kind == Write && v.open
    ensures var p := NextProposal(ld, content);
            Process(ld, NetMsg(remote, Req(req)), Accepted(content), systems)
              == ld.(count := p.count, acks := Stored(ld.acks, p.Id()), queue := ld.queue + [p],
                     saved := ld.saved + [p], outbox := ld.outbox + [Broadcast(Prop(p))])
  {
    hide StateChanges, Dense, Counted, LeaderLog, ViewOk, Stored;
  }

  /** A new proposal has no follower's acknowledgement yet. */
  lemma CountedPropose(v: View, ld: Node, acked: map<string, int>, systems: nat, p: Proposal, v': View, ld': Node)
    requires Counted(v, ld, acked, systems) && ld.count < 0xFFFF && systems >= 2 && v.fired <= ld.count
    requires p.epoch == ld.epoch && p.count == ld.count + 1
    requires ld'.acks == Stored(ld.acks, p.Id()) && ld'.epoch == ld.epoch && ld'.count == p.count && v'.fired == v.fired
    ensures Counted(v', ld', acked, systems)
  {
    assert Ackers(acked, p.count) == {};
    forall k: uint16 | 0 <= k <= ld.count ensures Compose(ld.epoch, k) != p.Id() {
      ComposeOrder(ld.epoch, k, p.epoch, p.count);
    }
  }

  lemma ProposeStep(v: View, ld: Node, lag: nat, acked: map<string, int>, outstanding: nat, systems: nat,
                    remote: string, req: Request, content: seq<byte>)
    requires Leader(v, ld, lag, acked, outstanding, systems) && req.kind == Write && v.open
    requires ld.count < 0xFFFF && Encodable(NextProposal(ld, content))
    ensures var p := NextProposal(ld, content);
            var ld' := Process(ld, NetMsg(remote, Req(req)), Accepted(content), systems);
            var v' := v.(log := v.log + [p]);
            && ViewOf(ld', lag) == v' && Leader(v', ld', lag, acked, outstanding, systems)
            && ld'.outbox == ld.outbox + [Broadcast(Prop(p))]
  {
    hide StateChanges, Dense, WellSaved, Process, Stored;
    var p := NextProposal(ld, content);
    var ld' := Process(ld, NetMsg(remote, Req(req)), Accepted(content), systems);
    var v' := v.(log := v.log + [p]);
    ProposeEffect(v, ld, lag, acked, outstanding, systems, remote, req, content);
    ProposalFitsLog(v, ld, lag, content);
    CountedPropose(v, ld, acked, systems, p, v', ld');
    hide Counted;
    assert ld'.committed + ld'.queue == (ld.committed + ld.queue) + [p];
    assert CountsInOrder(v', ld');
  }
}
