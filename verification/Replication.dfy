/** The whole system: the broadcast protocol carries what the leader's check accepts, and every
    replica applies what it commits to its storage. */
module Replication {
  import opened Zxid
  import opened Wrappers
  import opened Messages
  import opened Channel
  import opened ZabNode
  import opened FollowerSteps
  import opened LeaderSteps
  import opened TermSteps
  import opened Cluster
  import opened ClusterSafety
  import opened ClusterRuns
  import opened ClusterTheorems
  import opened Durability
  import Znodes
  import ZnodeAgreement
  import ZnodeRuns
  import ZnodeLoading
  import ZnodeStorage

  type Tree = Znodes.Tree
  type WriteRequest = Znodes.WriteRequest

  /** The JSON encoding, of which only this matters: what a leader puts into a proposal, a replica
      takes out again. */
  datatype Codec = Codec(
    parse: seq<byte> -> Option<WriteRequest>,
    pack: (int, WriteRequest) -> seq<byte>,
    unpack: seq<byte> -> Option<WriteRequest>)

  ghost predicate Sound(k: Codec) {
    forall num, r :: k.unpack(k.pack(num, r)) == Some(r)
  }

  /** The requests in a log; content that does not unpack is no request a replica knows. */
  function Decoded(k: Codec, log: seq<Proposal>): (rs: seq<WriteRequest>)
    ensures |rs| == |log|
  {
    if log == [] then []
    else
      Decoded(k, log[..|log| - 1]) +
      [match k.unpack(log[|log| - 1].content)
       case Some(r) => r
       case None => Znodes.WriteRequest(Znodes.Unknown, [])]
  }

  lemma {:induction false} DecodedPrefix(k: Codec, log: seq<Proposal>, n: nat)
    requires n <= |log|
    ensures Decoded(k, log[..n]) == Decoded(k, log)[..n]
    decreases |log|
  {
    if n < |log| {
      DecodedPrefix(k, log[..|log| - 1], n);
      assert log[..|log| - 1][..n] == log[..n];
    } else {
      assert log[..n] == log;
    }
  }

  /** Applying everything in a log in order, if nothing fails. */
  function Applied(k: Codec, s0: Tree, log: seq<Proposal>): Znodes.Result<Tree> {
    ZnodeRuns.Replay(s0, Decoded(k, log))
  }

  /** The storage of a node that started from `s0` and has committed `log`. */
  function StorageOf(k: Codec, s0: Tree, log: seq<Proposal>): Tree {
    ZnodeRuns.StorageAfter(s0, Decoded(k, log))
  }

  /** The leader's decision on a write and its cache afterwards. A cache that could not be loaded
      refuses everything. */
  function Decide(k: Codec, cache: Option<Tree>, storage: Tree, req: Request): (Verdict, Option<Tree>) {
    match k.parse(req.content)
    case None => (Denied([]), cache)
    case Some(r) =>
      match cache
      case None => (Denied([]), None)
      case Some(c) =>
        var (checked, c') := Znodes.Check(c, storage, r);
        (if checked.Ok? then Accepted(k.pack(req.num, checked.value)) else Denied([]), Some(c'))
  }

  // ---- What a step adds to the leader's log ----

  /** The write the leader decides on in this step, if there is one. */
  function WriteAt(w: World, a: Action): Option<Request> {
    if w.leader !in w.nodes || !w.nodes[w.leader].processing then None
    else if a.DeliverUp? && a.node in w.up && w.up[a.node] != [] && IsWrite(w.up[a.node][0]) then Some(w.up[a.node][0].req)
    else if a.ProcessOwn? && a.node == w.leader && w.nodes[a.node].inbox != [] && IsWrite(w.nodes[a.node].inbox[0].msg) then
      Some(w.nodes[a.node].inbox[0].msg.req)
    else None
  }

  function VerdictOf(a: Action): Verdict {
    if a.DeliverUp? || a.ProcessOwn? then a.verdict else Denied([])
  }

  /** What handling one message adds to a leader's log. */
  function Adds(n: Node, m: ZabMsg, verdict: Verdict): seq<Proposal> {
    if IsWrite(m) && n.processing && verdict.Accepted? then [NextProposal(n, verdict.content)] else []
  }

  lemma HandledLog(n: Node, net: NetMsg, verdict: Verdict, systems: nat)
    requires net.msg.Req? || net.msg.Ack?
    ensures Log(Process(n, net, verdict, systems)) == Log(n) + Adds(n, net.msg, verdict)
  {
    var n' := Process(n, net, verdict, systems);
    if net.msg.Ack? {
      AckSaves(n, net.msg.ack, systems);
    } else {
      RequestSaves(n, net.msg.req, net.remote, verdict);
    }
    hide Process;
    if Adds(n, net.msg, verdict) != [] {
      StateChangesAppend(n.saved, NextProposal(n, verdict.content));
    } else {
      assert n.saved + [] == n.saved;
      assert Log(n) + [] == Log(n);
    }
  }

  lemma AckSaves(n: Node, p: Proposal, systems: nat)
    ensures OnAck(n, p, systems).saved == n.saved
  {
  }

  lemma RequestSaves(n: Node, req: Request, remote: string, verdict: Verdict)
    ensures OnRequest(n, req, remote, verdict).saved == n.saved + Adds(n, Req(req), verdict)
  {
    assert n.saved + [] == n.saved;
    if req.kind == Sync && |req.content| >= 4 {
      hide SyncReply.Reply;
      SendAllLog(n, SyncReply.Reply(n.saved, n.epoch, n.count, req), remote);
    }
  }

  lemma {:induction false} SendAllLog(n: Node, ms: seq<ZabMsg>, target: string)
    ensures SendAll(n, ms, target).saved == n.saved
  {
    if ms != [] { SendAllLog(n, ms[..|ms| - 1], target); }
  }

  /** Within a term the leader's log grows by exactly the accepted writes. */
  lemma StepLog(w: World, a: Action) returns (added: seq<Proposal>)
    requires Reachable(w) && WellFormed(w) && Enabled(w, a) && !a.Elect?
    ensures LeaderLogOf(Apply(w, a)) == LeaderLogOf(w) + added
    ensures if WriteAt(w, a).Some? && VerdictOf(a).Accepted? then |added| == 1 && added[0].content == VerdictOf(a).content
            else added == []
  {
    hide Log, Reachable, Process, MayPropose, CanElect;
    match a
    case DeliverUp(i, v) => added := ArrivalLog(w, i, v);
    case ProcessOwn(i, v) => added := OwnLog(w, i, v);
    case Submit(i, num, content) =>
      added := [];
      SubmitLog(w, i, num, content);
    case SendNext(i) =>
      added := [];
      SendLog(w, i);
    case DeliverDown(i) => added := [];
  }

  lemma ArrivalLog(w: World, i: string, v: Verdict) returns (added: seq<Proposal>)
    requires Reachable(w) && WellFormed(w) && i in w.followers && w.up[i] != []
    ensures Log(DeliveredUp(w, i, v).nodes[w.leader]) == LeaderLogOf(w) + added
    ensures if WriteAt(w, DeliverUp(i, v)).Some? && v.Accepted? then |added| == 1 && added[0].content == v.content else added == []
  {
    hide Log, Reachable, Process;
    FromFollowers(w, i);
    HandledLog(w.nodes[w.leader], NetMsg(i, w.up[i][0]), v, |w.nodes|);
    added := Adds(w.nodes[w.leader], w.up[i][0], v);
  }

  lemma OwnLog(w: World, i: string, v: Verdict) returns (added: seq<Proposal>)
    requires Reachable(w) && WellFormed(w) && i in w.Ring() && w.nodes[i].inbox != []
    ensures w.leader in ProcessedOwn(w, i, v).nodes && Log(ProcessedOwn(w, i, v).nodes[w.leader]) == LeaderLogOf(w) + added
    ensures if WriteAt(w, ProcessOwn(i, v)).Some? && v.Accepted? then |added| == 1 && added[0].content == v.content else added == []
  {
    hide Log, Reachable, Process;
    added := [];
    if i == w.leader {
      OwnInbox(w);
      var ld := w.nodes[w.leader];
      var ld1 := ld.(inbox := ld.inbox[1..]);
      SameLog(ld, ld1);
      HandledLog(ld1, ld.inbox[0], v, |w.nodes|);
      added := Adds(ld1, ld.inbox[0].msg, v);
    }
  }

  lemma SubmitLog(w: World, i: string, num: int, content: seq<byte>)
    requires WellFormed(w) && i in w.nodes
    ensures Log(Submitted(w, i, num, content).nodes[w.leader]) == LeaderLogOf(w)
  {
    hide Log, SubmitWrite;
    if i == w.leader {
      SubmitKeepsSaved(w.nodes[i], num, content);
      SameLog(w.nodes[i], Submitted(w, i, num, content).nodes[i]);
    }
  }

  lemma SendLog(w: World, i: string)
    requires WellFormed(w) && i in w.Ring() && w.nodes[i].outbox != []
    ensures w.leader in Sent(w, i).nodes && Log(Sent(w, i).nodes[w.leader]) == LeaderLogOf(w)
  {
    hide Log, Route;
    if i == w.leader { SameLog(w.nodes[i], Sent(w, i).nodes[i]); }
  }

  lemma SubmitKeepsSaved(n: Node, num: int, content: seq<byte>)
    ensures SubmitWrite(n, num, content).saved == n.saved
  {
  }

  lemma FromFollowers(w: World, i: string)
    requires Reachable(w) && WellFormed(w) && i in w.followers && w.up[i] != []
    ensures w.up[i][0].Req? || w.up[i][0].Ack?
  {
    ReachableSafe(w);
    hide Reachable;
    FollowerFacts(w, i);
    assert (w.up[i] + Route(w.nodes[i].outbox, w.leader))[0] == w.up[i][0];
  }

  lemma OwnInbox(w: World)
    requires Reachable(w) && WellFormed(w) && w.nodes[w.leader].inbox != []
    ensures IsWrite(w.nodes[w.leader].inbox[0].msg)
  {
    ReachableSafe(w);
    hide Reachable, TermInv;
    InboxHoldsWrites(TermView(w), w.nodes[w.leader], w.lag, PeersOf(w), |w.nodes|);
  }

  // ---- The system ----

  /** The cluster together with the leader's cache. */
  datatype System = System(w: World, cache: Option<Tree>)

  function LeaderStorage(k: Codec, s0: Tree, w: World): Tree
    requires w.leader in w.nodes
  {
    StorageOf(k, s0, w.nodes[w.leader].committed)
  }

  /** The request the leader checks in this step, and its cache, if there are both. */
  function CheckedAt(k: Codec, y: System, a: Action): Option<(Tree, WriteRequest)> {
    match WriteAt(y.w, a)
    case None => None
    case Some(req) => if y.cache.Some? && k.parse(req.content).Some? then Some((y.cache.value, k.parse(req.content).value)) else None
  }

  /** What the code does: verdicts come from the check, and a leader that panics takes no step. */
  ghost predicate Lawful(k: Codec, s0: Tree, y: System, a: Action)
    requires WellFormed(y.w)
  {
    && Enabled(y.w, a)
    && (WriteAt(y.w, a).Some? ==> VerdictOf(a) == Decide(k, y.cache, LeaderStorage(k, s0, y.w), WriteAt(y.w, a).value).0)
    && (CheckedAt(k, y, a).Some? ==>
         var (c, r) := CheckedAt(k, y, a).value;
         !Znodes.Check(c, LeaderStorage(k, s0, y.w), r).0.Panic?)
  }

  /** A new leader loads its cache from its own storage; within a term the check updates it. */
  ghost function NextCache(k: Codec, s0: Tree, y: System, a: Action): Option<Tree>
    requires WellFormed(y.w)
  {
    if a.Elect? then
      if a.leader !in y.w.nodes then None else ZnodeLoading.Loaded(StorageOf(k, s0, y.w.nodes[a.leader].committed))
    else if WriteAt(y.w, a).Some? then Decide(k, y.cache, LeaderStorage(k, s0, y.w), WriteAt(y.w, a).value).1
    else y.cache
  }

  ghost function Step(k: Codec, s0: Tree, y: System, a: Action): (y': System)
    requires WellFormed(y.w) && Lawful(k, s0, y, a)
    ensures WellFormed(y'.w)
  {
    System(Apply(y.w, a), NextCache(k, s0, y, a))
  }

  /** Requests that cache and storage understand alike, all visible to the leader when they arrive;
      with `versions`, their updates name the versions they expect. */
  ghost predicate TameRequest(c: Tree, storage: Tree, versions: bool, r: WriteRequest) {
    && ZnodeRuns.Orderly(c, ZnodeRuns.Arrival(r, storage))
    && ZnodeStorage.Tidying(c, r)
    && (versions ==> ZnodeRuns.NamesVersions(r))
  }

  /** Folding what the elected node still has queued into its storage leaves paths and data as they
      are, and with `versions` the versions too. */
  ghost predicate QueueHarmless(k: Codec, s0: Tree, versions: bool, n: Node) {
    var mine, all := Applied(k, s0, n.committed), Applied(k, s0, n.committed + n.queue);
    mine.Ok? && all.Ok? ==> ZnodeAgreement.Alike(mine.value, all.value, versions)
  }

  /** What the main result assumes of a step beyond what the code does. */
  ghost predicate Tame(k: Codec, s0: Tree, versions: bool, y: System, a: Action)
    requires WellFormed(y.w)
  {
    && (CheckedAt(k, y, a).Some? ==>
         TameRequest(CheckedAt(k, y, a).value.0, LeaderStorage(k, s0, y.w), versions, CheckedAt(k, y, a).value.1))
    && (a.Elect? && a.leader in y.w.nodes ==> QueueHarmless(k, s0, versions, y.w.nodes[a.leader]))
  }

  /** Runs of the system; with `tame`, of tame steps only. */
  ghost predicate Possible(k: Codec, s0: Tree, versions: bool, tame: bool, y: System, acts: seq<Action>)
    requires WellFormed(y.w)
    decreases |acts|, 0
  {
    acts == [] ||
    var init, last := acts[..|acts| - 1], acts[|acts| - 1];
    && Possible(k, s0, versions, tame, y, init)
    && var y1 := Run(k, s0, versions, tame, y, init);
      Lawful(k, s0, y1, last) && (tame ==> Tame(k, s0, versions, y1, last))
  }

  ghost function Run(k: Codec, s0: Tree, versions: bool, tame: bool, y: System, acts: seq<Action>): (y': System)
    requires WellFormed(y.w) && Possible(k, s0, versions, tame, y, acts)
    ensures WellFormed(y'.w)
    decreases |acts|, 1
  {
    if acts == [] then y
    else Step(k, s0, Run(k, s0, versions, tame, y, acts[..|acts| - 1]), acts[|acts| - 1])
  }

  /** The first election among nodes that all start from storage `s0`. */
  ghost predicate Starts(s0: Tree, y: System) {
    Init(y.w) && WellFormed(y.w) && y.cache == ZnodeLoading.Loaded(s0)
  }

  /** States the system gets into, whatever requests arrive and whoever is elected. */
  ghost predicate SystemReachable(k: Codec, s0: Tree, y: System) {
    exists start: System, acts: seq<Action> ::
      && WellFormed(start.w) && Starts(s0, start)
      && Possible(k, s0, false, false, start, acts) && y == Run(k, s0, false, false, start, acts)
  }

  /** States it gets into by tame steps. */
  ghost predicate TameReachable(k: Codec, s0: Tree, versions: bool, y: System) {
    exists start: System, acts: seq<Action> ::
      && WellFormed(start.w) && Starts(s0, start)
      && Possible(k, s0, versions, true, start, acts) && y == Run(k, s0, versions, true, start, acts)
  }

  lemma SystemStarts(k: Codec, s0: Tree, y: System)
    requires Starts(s0, y)
    ensures SystemReachable(k, s0, y)
  {
    hide Starts;
    assert WellFormed(y.w) by { StartIsWellFormed(s0, y); }
    hide WellFormed;
    assert Possible(k, s0, false, false, y, []) && y == Run(k, s0, false, false, y, []);
  }

  lemma StartIsWellFormed(s0: Tree, y: System)
    requires Starts(s0, y)
    ensures WellFormed(y.w)
  {
  }

  lemma SystemStep(k: Codec, s0: Tree, y: System, a: Action)
    requires SystemReachable(k, s0, y) && WellFormed(y.w) && Lawful(k, s0, y, a)
    ensures SystemReachable(k, s0, Step(k, s0, y, a))
  {
    hide Starts, WellFormed, Lawful, Step, Tame;
    var start: System, acts: seq<Action> :|
      && WellFormed(start.w) && Starts(s0, start)
      && Possible(k, s0, false, false, start, acts) && y == Run(k, s0, false, false, start, acts);
    var longer := acts + [a];
    assert longer[..|longer| - 1] == acts;
    assert Possible(k, s0, false, false, start, longer) && Run(k, s0, false, false, start, longer) == Step(k, s0, y, a);
  }

  // ---- The invariant of the system ----

  /** Every prefix of the log can be applied, and leaves a tree that loads as a whole. */
  ghost predicate Applies(s0: Tree, log: seq<WriteRequest>)
    decreases |log|
  {
    && ZnodeRuns.Replay(s0, log).Ok?
    && ZnodeAgreement.Keyed(ZnodeRuns.Replay(s0, log).value) && ZnodeLoading.Tidy(ZnodeRuns.Replay(s0, log).value)
    && (log != [] ==> Applies(s0, log[..|log| - 1]))
  }

  lemma {:induction false} AppliesPrefix(s0: Tree, log: seq<WriteRequest>, n: nat)
    requires Applies(s0, log) && n <= |log|
    ensures Applies(s0, log[..n])
    decreases |log|
  {
    hide *;
    if n < |log| {
      AppliesBefore(s0, log);
      AppliesPrefix(s0, log[..|log| - 1], n);
      assert log[..|log| - 1][..n] == log[..n];
    } else {
      assert log[..n] == log;
    }
  }

  lemma AppliesBefore(s0: Tree, log: seq<WriteRequest>)
    requires Applies(s0, log) && log != []
    ensures Applies(s0, log[..|log| - 1])
  {
    hide ZnodeRuns.Replay, ZnodeAgreement.Keyed, ZnodeLoading.Tidy;
  }

  /** The leader's whole log applies to the initial storage, and the cache is what it leads to. */
  ghost predicate Faithful(k: Codec, s0: Tree, versions: bool, y: System) {
    && Reachable(y.w) && WellFormed(y.w) && y.cache.Some?
    && Applies(s0, Decoded(k, LeaderLogOf(y.w)))
    && ZnodeAgreement.Alike(y.cache.value, Applied(k, s0, LeaderLogOf(y.w)).value, versions)
  }

  lemma AppliesOneMore(s0: Tree, log: seq<WriteRequest>, r: WriteRequest)
    requires Applies(s0, log)
    requires var (w, t) := Znodes.Write(ZnodeRuns.Replay(s0, log).value, r);
             w.Ok? && ZnodeAgreement.Keyed(t) && ZnodeLoading.Tidy(t)
    ensures Applies(s0, log + [r])
    ensures ZnodeRuns.Replay(s0, log + [r]) == Znodes.Ok(Znodes.Write(ZnodeRuns.Replay(s0, log).value, r).1)
  {
    hide ZnodeLoading.Tidy, ZnodeAgreement.Keyed, Znodes.Write;
    ZnodeRuns.ReplayOneMore(s0, log, r);
    assert (log + [r])[..|log|] == log;
  }

  lemma DecodedOneMore(k: Codec, log: seq<Proposal>, p: Proposal, r: WriteRequest)
    requires k.unpack(p.content) == Some(r)
    ensures Decoded(k, log + [p]) == Decoded(k, log) + [r]
  {
    assert (log + [p])[..|log|] == log;
  }

  lemma AlikeWeaker(c: Tree, s: Tree, versions: bool)
    requires ZnodeAgreement.Alike(c, s, versions)
    ensures ZnodeAgreement.Alike(c, s, false)
  {
    ZnodeRuns.Weaken(c, s, versions, false);
  }

  /** An accepted tame request: log and cache move together. */
  lemma AcceptedFaithful(k: Codec, s0: Tree, versions: bool, log: seq<Proposal>, cache: Tree, storage: Tree, num: int,
                         r: WriteRequest, p: Proposal)
    requires Sound(k) && Applies(s0, Decoded(k, log)) && ZnodeAgreement.Alike(cache, Applied(k, s0, log).value, versions)
    requires TameRequest(cache, storage, versions, r) && Znodes.Check(cache, storage, r).0.Ok?
    requires p.content == k.pack(num, Znodes.Check(cache, storage, r).0.value)
    ensures Applies(s0, Decoded(k, log + [p]))
    ensures ZnodeAgreement.Alike(Znodes.Check(cache, storage, r).1, Applied(k, s0, log + [p]).value, versions)
  {
    var t, q := Applied(k, s0, log).value, Znodes.Check(cache, storage, r).0.value;
    TameIs(cache, storage, versions, r);
    assert k.unpack(k.pack(num, q)) == Some(q);
    hide Znodes.Check, Znodes.Write, ZnodeAgreement.Keyed, ZnodeAgreement.Alike, ZnodeLoading.Tidy, ZnodeRuns.Leaf;
    hide ZnodeStorage.Tidying, ZnodeRuns.NamesVersions, TameRequest, Sound;
    ZnodeRuns.AcceptedIsWritten(cache, storage, t, versions, r);
    AlikeWeaker(cache, t, versions);
    ZnodeStorage.AcceptedKeepsTidy(cache, storage, t, r);
    DecodedOneMore(k, log, p, q);
    AppliesOneMore(s0, Decoded(k, log), q);
  }

  lemma TameIs(cache: Tree, storage: Tree, versions: bool, r: WriteRequest)
    requires TameRequest(cache, storage, versions, r)
    ensures r.kind != Znodes.DeleteSession && r.kind != Znodes.Sync && ZnodeRuns.Leaf(cache, r) && ZnodeStorage.Tidying(cache, r)
    ensures versions ==> ZnodeRuns.NamesVersions(r)
  {
    hide ZnodeRuns.Leaf, ZnodeStorage.Tidying, ZnodeRuns.NamesVersions, Znodes.Check;
  }

  /** A decided write: the log and the cache move together. */
  lemma WriteFaithful(k: Codec, s0: Tree, versions: bool, log: seq<Proposal>, cache: Tree, storage: Tree, req: Request,
                      added: seq<Proposal>)
    requires Sound(k) && Applies(s0, Decoded(k, log)) && ZnodeAgreement.Alike(cache, Applied(k, s0, log).value, versions)
    requires var verdict := Decide(k, Some(cache), storage, req).0;
             if verdict.Accepted? then |added| == 1 && added[0].content == verdict.content else added == []
    requires k.parse(req.content).Some? ==>
      var r := k.parse(req.content).value;
      TameRequest(cache, storage, versions, r) && !Znodes.Check(cache, storage, r).0.Panic?
    ensures Applies(s0, Decoded(k, log + added))
    ensures var c := Decide(k, Some(cache), storage, req).1;
            c.Some? && ZnodeAgreement.Alike(c.value, Applied(k, s0, log + added).value, versions)
  {
    hide Znodes.Check, ZnodeAgreement.Alike, Applies, Applied, Decoded, Sound;
    if k.parse(req.content).Some? {
      var r := k.parse(req.content).value;
      if Znodes.Check(cache, storage, r).0.Ok? {
        assert added == [added[0]];
        AcceptedFaithful(k, s0, versions, log, cache, storage, req.num, r, added[0]);
      } else {
        ZnodeRuns.OrderlyRefusal(cache, ZnodeRuns.Arrival(r, storage));
        assert log + added == log;
      }
    } else {
      assert log + added == log;
    }
  }

  lemma StepFaithful(k: Codec, s0: Tree, versions: bool, y: System, a: Action)
    requires WellFormed(y.w) && Lawful(k, s0, y, a) && Tame(k, s0, versions, y, a)
    requires Sound(k) && Faithful(k, s0, versions, y)
    ensures Faithful(k, s0, versions, Step(k, s0, y, a))
  {
    hide Faithful, Tame, Lawful, Step, Reachable, WellFormed;
    if a.Elect? {
      NextReachable(k, s0, versions, y, a);
      ElectFaithful(k, s0, versions, y, a);
      TameElect(k, s0, versions, y, a);
    } else {
      QuietFaithful(k, s0, versions, y, a);
    }
  }

  lemma NextReachable(k: Codec, s0: Tree, versions: bool, y: System, a: Action)
    requires WellFormed(y.w) && Lawful(k, s0, y, a) && Faithful(k, s0, versions, y)
    ensures Enabled(y.w, a) && Reachable(Apply(y.w, a)) && WellFormed(Apply(y.w, a))
  {
    hide Enabled, Reachable, Apply, WellFormed, Decide, Applies;
    ReachableStep(y.w, a);
  }

  lemma TameElect(k: Codec, s0: Tree, versions: bool, y: System, a: Action)
    requires WellFormed(y.w) && Tame(k, s0, versions, y, a) && a.Elect? && a.leader in y.w.nodes
    ensures QueueHarmless(k, s0, versions, y.w.nodes[a.leader])
  {
    hide QueueHarmless, TameRequest;
  }

  /** A step within a term. */
  lemma QuietFaithful(k: Codec, s0: Tree, versions: bool, y: System, a: Action)
    requires WellFormed(y.w) && Lawful(k, s0, y, a) && Tame(k, s0, versions, y, a)
    requires Sound(k) && Faithful(k, s0, versions, y)
    requires !a.Elect?
    ensures Faithful(k, s0, versions, Step(k, s0, y, a))
  {
    hide Reachable, Enabled, Applies, ZnodeAgreement.Alike, Decide, Decoded, Log, Apply, TameRequest, Znodes.Check, Sound;
    hide Applied, QueueHarmless, StorageOf;
    NextReachable(k, s0, versions, y, a);
    var added := StepLog(y.w, a);
    if WriteAt(y.w, a).Some? {
      WriteFaithful(k, s0, versions, LeaderLogOf(y.w), y.cache.value, LeaderStorage(k, s0, y.w), WriteAt(y.w, a).value, added);
    } else {
      assert LeaderLogOf(y.w) + added == LeaderLogOf(y.w);
    }
  }

  /** An election keeps the cache faithful to the log exactly if what the elected node has queued is
      harmless. */
  lemma ElectFaithful(k: Codec, s0: Tree, versions: bool, y: System, a: Action)
    requires WellFormed(y.w) && Lawful(k, s0, y, a) && Faithful(k, s0, versions, y) && a.Elect?
    requires Reachable(Apply(y.w, a)) && WellFormed(Apply(y.w, a))
    ensures a.leader in y.w.nodes
    ensures Faithful(k, s0, versions, Step(k, s0, y, a)) <==> QueueHarmless(k, s0, versions, y.w.nodes[a.leader])
  {
    hide Reachable, Enabled, Applies, ZnodeAgreement.Alike, Log, Apply, Decoded;
    NewLeaderLog(y.w, a.ring, a.leader);
    assert a == Elect(a.ring, a.leader);
    var n := y.w.nodes[a.leader];
    LogApplies(k, s0, LeaderLogOf(y.w), n.committed + n.queue);
    LogApplies(k, s0, LeaderLogOf(y.w), n.committed);
  }

  /** A node that has committed a prefix of a log that applies has a storage that loads as a whole. */
  lemma LogApplies(k: Codec, s0: Tree, log: seq<Proposal>, mine: seq<Proposal>)
    requires Applies(s0, Decoded(k, log)) && mine <= log
    ensures Applies(s0, Decoded(k, mine)) && Applied(k, s0, mine).Ok?
    ensures StorageOf(k, s0, mine) == Applied(k, s0, mine).value
    ensures ZnodeLoading.Loaded(StorageOf(k, s0, mine)) == Some(StorageOf(k, s0, mine))
  {
    DecodedPrefix(k, log, |mine|);
    hide Decoded, ZnodeAgreement.Keyed, ZnodeLoading.Tidy, ZnodeLoading.Loaded;
    assert log[..|mine|] == mine;
    AppliesPrefix(s0, Decoded(k, log), |mine|);
    AppliesNow(s0, Decoded(k, mine));
    ZnodeRuns.StorageOfReplay(s0, Decoded(k, mine));
    ZnodeLoading.TidyLoads(Applied(k, s0, mine).value);
  }

  lemma AppliesNow(s0: Tree, log: seq<WriteRequest>)
    requires Applies(s0, log)
    ensures ZnodeRuns.Replay(s0, log).Ok? && ZnodeLoading.Tidy(ZnodeRuns.Replay(s0, log).value)
  {
    hide ZnodeLoading.Tidy, ZnodeAgreement.Keyed;
  }

  /** The log of an elected node is what it committed and what it has queued, a prefix of the old
      leader's log. */
  lemma NewLeaderLog(w: World, ring: set<string>, leader: string)
    requires Reachable(w) && WellFormed(w) && Enabled(w, Elect(ring, leader))
    ensures var w' := Apply(w, Elect(ring, leader));
            && leader in w.nodes && LeaderLogOf(w') == w.nodes[leader].committed + w.nodes[leader].queue
            && LeaderLogOf(w') <= LeaderLogOf(w) && w.nodes[leader].committed <= LeaderLogOf(w)
  {
    CommittedEverywhere(w, leader);
    Standing(w);
    ElectedIsIdle(w, ring, leader);
    SameLogs(w.nodes, ring, leader);
    assert FollowerStands(w, leader);
    hide Reachable, Log, LeaderStands, StartTerm;
    NewTermShape(w.nodes, ring, leader);
  }

  /** An empty queue is harmless. */
  lemma EmptyQueueIsHarmless(k: Codec, s0: Tree, versions: bool, n: Node)
    requires n.queue == []
    ensures QueueHarmless(k, s0, versions, n)
  {
    assert n.committed + [] == n.committed;
    var t := Applied(k, s0, n.committed);
    if t.Ok? {
      ZnodeRuns.AlikeSelf(t.value);
      ZnodeRuns.Weaken(t.value, t.value, true, versions);
    }
  }

  lemma {:induction false} RunFaithful(k: Codec, s0: Tree, versions: bool, y: System, acts: seq<Action>)
    requires Sound(k) && Faithful(k, s0, versions, y) && WellFormed(y.w) && Possible(k, s0, versions, true, y, acts)
    ensures Faithful(k, s0, versions, Run(k, s0, versions, true, y, acts))
    decreases |acts|
  {
    hide Sound, Faithful, Lawful, Tame, WellFormed, Step;
    if acts != [] {
      var init := acts[..|acts| - 1];
      RunFaithful(k, s0, versions, y, init);
      StepFaithful(k, s0, versions, Run(k, s0, versions, true, y, init), acts[|acts| - 1]);
    }
  }

  /** Node `i` can apply all it has committed, and the rest of the leader's log from there, which
      leads to the paths and data, and with `versions` the versions, of the leader's cache. */
  ghost predicate Replicates(k: Codec, s0: Tree, versions: bool, y: System, i: string) {
    && i in y.w.nodes && y.w.leader in y.w.nodes && y.cache.Some?
    && var mine, log := y.w.nodes[i].committed, LeaderLogOf(y.w);
      && mine <= log && Applied(k, s0, mine).Ok? && Applied(k, s0, log).Ok?
      && ZnodeRuns.Replay(Applied(k, s0, mine).value, Decoded(k, log)[|mine|..]) == Applied(k, s0, log)
      && ZnodeAgreement.Alike(y.cache.value, Applied(k, s0, log).value, versions)
  }

  /** State machine replication: by tame steps every replica can always apply what it has committed,
      without any request failing, and the leader's cache is what all replicas are heading for. */
  lemma ReplicasNeverFail(k: Codec, s0: Tree, versions: bool, y: System, i: string)
    requires Sound(k) && ZnodeAgreement.Keyed(s0) && ZnodeLoading.Tidy(s0)
    requires TameReachable(k, s0, versions, y) && i in y.w.Ring()
    ensures Replicates(k, s0, versions, y, i)
  {
    hide Run, Possible, Sound, ZnodeAgreement.Keyed, ZnodeLoading.Tidy, Starts, WellFormed;
    var start: System, acts: seq<Action> :|
      && WellFormed(start.w) && Starts(s0, start)
      && Possible(k, s0, versions, true, start, acts) && y == Run(k, s0, versions, true, start, acts);
    InitFaithful(k, s0, versions, start);
    hide Faithful, Replicates;
    RunFaithful(k, s0, versions, start, acts);
    FaithfulReplicates(k, s0, versions, y, i);
  }

  lemma FaithfulReplicates(k: Codec, s0: Tree, versions: bool, y: System, i: string)
    requires Faithful(k, s0, versions, y) && i in y.w.Ring()
    ensures Replicates(k, s0, versions, y, i)
  {
    hide Reachable, Log, ZnodeAgreement.Alike, Applies, Decoded;
    CommittedEverywhere(y.w, i);
    var log, n := LeaderLogOf(y.w), |y.w.nodes[i].committed|;
    AppliesNow(s0, Decoded(k, log));
    DecodedPrefix(k, log, n);
    assert log[..n] == y.w.nodes[i].committed;
    ZnodeRuns.ReplayPrefix(s0, Decoded(k, log), n);
  }

  /** Nothing has been proposed when the first term starts. */
  lemma InitLog(w: World)
    requires Init(w) && WellFormed(w)
    ensures LeaderLogOf(w) == []
  {
    hide Log;
    var nodes, ring, leader :| JustStarted(nodes) && CanElect(nodes, ring, leader) && w == StartTerm(nodes, ring, leader);
    assert nodes[leader] == Fresh(leader);
    assert w.nodes[w.leader].saved == [] && w.leader == leader;
    NothingLogged(w.nodes[leader]);
  }

  lemma NothingLogged(n: Node)
    requires n.saved == []
    ensures Log(n) == []
  {
  }

  lemma InitFaithful(k: Codec, s0: Tree, versions: bool, y: System)
    requires ZnodeAgreement.Keyed(s0) && ZnodeLoading.Tidy(s0) && Starts(s0, y)
    ensures Faithful(k, s0, versions, y)
  {
    hide Init, Log, ZnodeLoading.Tidy, ZnodeAgreement.Keyed, ZnodeLoading.Loaded, Reachable;
    InitLog(y.w);
    hide WellFormed;
    ZnodeLoading.TidyLoads(s0);
    InitIsReachable(y.w);
    hide Starts, ZnodeAgreement.Alike;
    ZnodeRuns.AlikeSelf(s0);
    ZnodeRuns.Weaken(s0, s0, true, versions);
  }
}
