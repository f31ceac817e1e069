/** What holds of each follower throughout a leader's term, relative to the leader's log, and that
    handling any message from the leader keeps it. */
module FollowerSteps {
  import opened Zxid
  import opened Messages
  import opened Channel
  import opened SyncReply
  import opened ProposalLog
  import opened ZabNode

  /** The state changes a node has received or proposed. */
  function Log(n: Node): seq<Proposal> {
    StateChanges(n.saved)
  }

  /** The leader as its followers see it: its whole log, how much of it precedes the term, how many
      proposals of the term are committed, and whether it processes requests yet. */
  datatype View = View(leader: string, log: seq<Proposal>, base: int, fired: int, open: bool, nl: Proposal)

  ghost predicate ViewOk(v: View) {
    && Dense(v.log)
    && 0 <= v.base <= |v.log| && 0 <= v.fired <= |v.log| - v.base
    && (!v.open ==>
      && v.fired == 0 && v.base == |v.log| > 0
      && v.nl == NewLeaderProposal(v.nl.epoch, LastId(v.log))
      && v.log[v.base - 1].epoch < v.nl.epoch)
  }

  /** Only what a leader sends once a follower is past its NewLeader message. */
  predicate Plain(ms: seq<ZabMsg>) {
    ms == [] || (IsPlain(ms[0]) && Plain(ms[1..]))
  }

  predicate IsPlain(m: ZabMsg) {
    m.Err? || m.SyncErr? || m == COMMIT_MSG || (m.Prop? && IsStateChange(m.prop))
  }

  /** A node that is not leading. */
  predicate Idle(f: Node) {
    !f.processing && !f.syncing && f.acks == map[] && f.holding == [] && f.inbox == [] && !f.stopped
  }

  /** A follower's log is a prefix of the leader's, split into committed and queued, and its counter
      is the zxid of its last entry. */
  ghost predicate Consistent(f: Node, log: seq<Proposal>) {
    && WellSaved(f.saved)
    && Log(f) <= log
    && f.committed + f.queue == Log(f)
    && f.Id() == LastId(Log(f))
  }

  /** The leader's announcement is still on its way. */
  ghost predicate Waiting(v: View, f: Node, down: seq<ZabMsg>, up: seq<ZabMsg>) {
    && !v.open && down == [Prop(v.nl)] && Acks(up) == [] && Syncs(up) == []
    && |Log(f)| <= v.base && (f.track.active ==> |Log(f)| < v.base)
  }

  /** The follower is catching up: its request for the missing entries or the entries themselves
      are on their way. */
  ghost predicate CatchingUp(v: View, f: Node, down: seq<ZabMsg>, up: seq<ZabMsg>) {
    && !v.open && f.track == SyncTracker(true, LastId(v.log), v.nl)
    && f.queue == [] && |Log(f)| < v.base && Acks(up) == []
    && OnlyStateChanges(down) && |Log(f)| <= |v.log|
    && if Syncs(up) == [] then Carried(down) == v.log[|Log(f)|..]
       else Carried(down) == [] && |Syncs(up)| == 1 && Syncs(up)[0].content == Uint32ToBytes(f.Id())
  }

  /** The follower has the whole log up to the term and takes part in the broadcast. */
  ghost predicate Ready(v: View, f: Node, down: seq<ZabMsg>, up: seq<ZabMsg>) {
    && !f.track.active && Syncs(up) == [] && Plain(down)
    && v.base <= |f.committed| && v.base <= |Log(f)|
    && |Log(f)| <= |v.log| && Carried(down) == v.log[|Log(f)|..]
    && |f.committed| + Commits(down) == v.base + v.fired
    && NeverOutruns(down, |f.queue|)
    && ((!v.open && Acks(up) == [v.nl]) || AcksInOrder(v, Log(f), Acks(up)))
  }

  /** The acknowledgements on their way are those of the latest entries, in log order. */
  ghost predicate AcksInOrder(v: View, log: seq<Proposal>, acks: seq<Proposal>) {
    |acks| <= |log| && v.base <= |log| - |acks| && acks == log[|log| - |acks|..]
  }

  ghost predicate Follower(v: View, f: Node, down: seq<ZabMsg>, up: seq<ZabMsg>) {
    && f.coordinator == v.leader && f.name != v.leader && Idle(f)
    && Consistent(f, v.log)
    && (Waiting(v, f, down, up) || CatchingUp(v, f, down, up) || Ready(v, f, down, up))
  }

  /** The follower's acknowledgement of NewLeader has not reached the leader. */
  ghost predicate Outstanding(v: View, f: Node, down: seq<ZabMsg>, up: seq<ZabMsg>) {
    down == [Prop(v.nl)] || f.track.active || Acks(up) == [v.nl]
  }

  /** How many entries of the term the leader knows this follower to have. */
  function Acked(v: View, f: Node, up: seq<ZabMsg>): int {
    |Log(f)| - v.base - |Acks(up)|
  }

  function Addressed(ms: seq<ZabMsg>, target: string): seq<Outgoing> {
    if ms == [] then [] else [To(target, ms[0])] + Addressed(ms[1..], target)
  }

  /** What a follower sends to the leader while handling a message. */
  function Reaction(v: View, f: Node, m: ZabMsg): seq<ZabMsg> {
    if !m.Prop? || m.prop.kind == COMMIT then []
    else if m.prop.kind == NEW_LEADER then
      if |Log(f)| == v.base then [Ack(m.prop)] else [Req(Request(Sync, 0, Uint32ToBytes(f.Id())))]
    else if !f.track.active then [Ack(m.prop)]
    else if |Log(f)| + 1 == v.base then [Ack(v.nl)]
    else []
  }

  function Handled(v: View, f: Node, m: ZabMsg, systems: nat): Node {
    Process(f, NetMsg(v.leader, m), Denied([]), systems)
  }

  /** Everything a follower step establishes. */
  ghost predicate StepKept(v: View, f: Node, m: ZabMsg, rest: seq<ZabMsg>, up: seq<ZabMsg>, f': Node) {
    var up' := up + Reaction(v, f, m);
    && f'.outbox == f.outbox + Addressed(Reaction(v, f, m), v.leader)
    && f'.name == f.name
    && Log(f) <= Log(f')
    && Follower(v, f', rest, up')
    && (!v.open ==> (Outstanding(v, f', rest, up') <==> Outstanding(v, f, [m] + rest, up)))
    && (Acked(v, f', up') == Acked(v, f, up) || (Acked(v, f', up') <= 0 && Acked(v, f, up) <= 0))
  }

  lemma AddressedOne(m: ZabMsg, target: string)
    ensures Addressed([m], target) == [To(target, m)] && Addressed([], target) == []
  {
    assert [m][1..] == [];
  }

  lemma One(m: ZabMsg)
    ensures Acks([m]) == if m.Ack? then [m.ack] else []
    ensures Syncs([m]) == if m.Req? && m.req.kind == Sync then [m.req] else []
  {
    assert [m][1..] == [];
  }

  /** The announcement flushes the queue; then it is acknowledged, or the missing entries are
      requested. */
  lemma AnnouncementEffect(v: View, f: Node, systems: nat)
    requires ViewOk(v) && !v.open && f.coordinator == v.leader && f.name != v.leader && Consistent(f, v.log)
    ensures var upToDate, r := |Log(f)| == v.base, Reaction(v, f, Prop(v.nl));
            Handled(v, f, Prop(v.nl), systems) ==
              f.(saved := f.saved + [v.nl], committed := Log(f), queue := [], outbox := f.outbox + Addressed(r, v.leader),
                 finished := if upToDate then f.finished + 1 else f.finished,
                 track := if upToDate then f.track else SyncTracker(true, LastId(v.log), v.nl))
  {
    hide WellSaved, AllFit, HasContent, StateChanges, Dense;
    Uint32RoundTrip(LastId(v.log), []);
    LastIdOrder(v.log, |Log(f)|, v.base);
    assert v.log[..v.base] == v.log && v.log[..|Log(f)|] == Log(f);
    AddressedOne(Ack(v.nl), v.leader);
    AddressedOne(Req(Request(Sync, 0, Uint32ToBytes(f.Id()))), v.leader);
  }

  lemma AnnouncementConsistent(v: View, f: Node, systems: nat)
    requires ViewOk(v) && !v.open && f.coordinator == v.leader && f.name != v.leader && Consistent(f, v.log)
    ensures var f' := Handled(v, f, Prop(v.nl), systems);
            Consistent(f', v.log) && Log(f') == Log(f) && Log(f) <= v.log
  {
    hide StateChanges, Dense, Reaction, Handled, LastId;
    AnnouncementEffect(v, f, systems);
    LogEpochs(v, f);
    WellSavedAppend(f.saved, v.nl);
    assert Log(f) + [] == Log(f);
  }

  lemma OnNewLeaderMessage(v: View, f: Node, up: seq<ZabMsg>, systems: nat)
    requires ViewOk(v) && Follower(v, f, [Prop(v.nl)], up) && Waiting(v, f, [Prop(v.nl)], up)
    ensures StepKept(v, f, Prop(v.nl), [], up, Handled(v, f, Prop(v.nl), systems))
  {
    hide WellSaved, StateChanges, Dense, Handled, LastId, Consistent, Addressed, Acks, Syncs;
    var f' := Handled(v, f, Prop(v.nl), systems);
    var r := Reaction(v, f, Prop(v.nl));
    AnnouncementEffect(v, f, systems);
    AnnouncementConsistent(v, f, systems);
    AppendProjections(up, r);
    assert v.log[|v.log|..] == [];
    One(r[0]);
    if |Log(f)| == v.base {
      assert r == [Ack(v.nl)];
      assert Acks(up + r) == [v.nl] && Syncs(up + r) == [];
      assert Ready(v, f', [], up + r);
    } else {
      assert r == [Req(Request(Sync, 0, Uint32ToBytes(f.Id())))];
      assert CatchingUp(v, f', [], up + r);
    }
  }

  /** The entries of a follower's log belong to earlier epochs while the term is not open. */
  lemma LogEpochs(v: View, f: Node)
    requires ViewOk(v) && !v.open && Consistent(f, v.log)
    ensures Log(f) != [] ==> Log(f)[|Log(f)| - 1].epoch < v.nl.epoch
  {
    hide WellSaved, StateChanges, Dense;
    if Log(f) != [] {
      var last := |Log(f)| - 1;
      assert Log(f)[last] == v.log[last];
      if last < v.base - 1 {
        DenseIncreasing(v.log, last, v.base - 1);
      }
    }
  }

  /** The next entry of the leader's log extends a consistent follower. */
  lemma NextEntry(v: View, f: Node, p: Proposal)
    requires ViewOk(v) && Consistent(f, v.log) && |Log(f)| < |v.log| && p == v.log[|Log(f)|]
    ensures WellSaved(f.saved + [p]) && StateChanges(f.saved + [p]) == Log(f) + [p]
    ensures Log(f) + [p] <= v.log
    ensures IsStateChange(p)
    ensures p.Id() == LastId(Log(f) + [p]) == LastId(v.log[..|Log(f)| + 1])
  {
    hide *;
    ConsistentParts(f, v.log);
    ViewIsDense(v);
    DenseEntry(v.log, |Log(f)|);
    WellSavedAppend(f.saved, p);
    assert v.log[..|Log(f)| + 1] == Log(f) + [p];
    LastOfAppend(Log(f), p);
  }

  lemma ConsistentParts(f: Node, log: seq<Proposal>)
    requires Consistent(f, log)
    ensures WellSaved(f.saved) && StateChanges(f.saved) == Log(f) <= log && f.committed + f.queue == Log(f)
    ensures f.Id() == LastId(Log(f))
  {
    hide StateChanges, WellSaved, LastId;
  }

  lemma ViewIsDense(v: View)
    requires ViewOk(v)
    ensures Dense(v.log)
  {
    hide Dense, LastId;
  }

  lemma LastOfAppend(ps: seq<Proposal>, p: Proposal)
    ensures LastId(ps + [p]) == p.Id()
  {
  }

  lemma CarriedHead(v: View, n: nat, m: ZabMsg, rest: seq<ZabMsg>)
    requires m.Prop? && IsStateChange(m.prop) && n <= |v.log| && Carried([m] + rest) == v.log[n..]
    ensures n < |v.log| && m.prop == v.log[n] && Carried(rest) == v.log[n + 1..]
  {
    assert ([m] + rest)[1..] == rest;
    assert Carried([m] + rest) == [m.prop] + Carried(rest);
    assert v.log[n..][1..] == v.log[n + 1..];
  }

  /** In sync mode an entry is saved and committed; the last one ends the mode. */
  lemma CatchUpEffect(v: View, f: Node, p: Proposal, systems: nat)
    requires ViewOk(v) && !v.open && f.coordinator == v.leader && f.name != v.leader && Consistent(f, v.log)
    requires f.track == SyncTracker(true, LastId(v.log), v.nl) && f.queue == []
    requires |Log(f)| < |v.log| && p == v.log[|Log(f)|]
    ensures var f', done := Handled(v, f, Prop(p), systems), |Log(f)| + 1 == v.base;
            && f' == f.(epoch := p.epoch, count := p.count, saved := f.saved + [p], committed := Log(f) + [p],
                        outbox := f.outbox + Addressed(Reaction(v, f, Prop(p)), v.leader),
                        track := f.track.(active := !done), finished := if done then f.finished + 1 else f.finished)
            && Consistent(f', v.log) && Log(f') == Log(f) + [p]
  {
    hide WellSaved, StateChanges, Dense, LastId;
    NextEntry(v, f, p);
    LastIdOrder(v.log, |Log(f)| + 1, |v.log|);
    assert v.log[..|v.log|] == v.log;
    AddressedOne(Ack(v.nl), v.leader);
    assert f.committed == Log(f);
  }

  lemma {:induction false} OnlyStateChangesArePlain(ms: seq<ZabMsg>, held: nat)
    requires OnlyStateChanges(ms)
    ensures Plain(ms) && Commits(ms) == 0 && NeverOutruns(ms, held)
    decreases ms
  {
    if ms != [] {
      OnlyStateChangesArePlain(ms[1..], if ms[0].Prop? then held + 1 else held);
    }
  }

  lemma OnCatchUpEntry(v: View, f: Node, p: Proposal, rest: seq<ZabMsg>, up: seq<ZabMsg>, systems: nat)
    requires ViewOk(v) && Follower(v, f, [Prop(p)] + rest, up) && CatchingUp(v, f, [Prop(p)] + rest, up)
    ensures StepKept(v, f, Prop(p), rest, up, Handled(v, f, Prop(p), systems))
  {
    hide WellSaved, StateChanges, Dense, Handled, LastId, Consistent, Addressed, Acks, Syncs, Carried, NeverOutruns, Plain;
    var f', down := Handled(v, f, Prop(p), systems), [Prop(p)] + rest;
    var r := Reaction(v, f, Prop(p));
    assert down[1..] == rest && down[0] == Prop(p);
    assert IsStateChange(p);
    assert Syncs(up) == [] by { CarriedNonEmpty(p, rest); }
    CarriedHead(v, |Log(f)|, Prop(p), rest);
    CatchUpEffect(v, f, p, systems);
    AppendProjections(up, r);
    if |Log(f)| + 1 == v.base {
      assert r == [Ack(v.nl)];
      One(r[0]);
      OnlyStateChangesArePlain(rest, 0);
      assert Ready(v, f', rest, up + r);
    } else {
      assert r == [] && up + r == up;
      assert CatchingUp(v, f', rest, up + r);
    }
  }

  lemma CarriedNonEmpty(p: Proposal, rest: seq<ZabMsg>)
    requires IsStateChange(p)
    ensures Carried([Prop(p)] + rest) != []
  {
  }

  /** In the broadcast an entry is acknowledged and queued. */
  lemma ReceiveEffect(v: View, f: Node, p: Proposal, systems: nat)
    requires ViewOk(v) && f.coordinator == v.leader && f.name != v.leader && Consistent(f, v.log)
    requires !f.track.active && |Log(f)| < |v.log| && p == v.log[|Log(f)|]
    ensures var f' := Handled(v, f, Prop(p), systems);
            && f' == f.(epoch := p.epoch, count := p.count, saved := f.saved + [p], queue := f.queue + [p],
                        outbox := f.outbox + Addressed(Reaction(v, f, Prop(p)), v.leader))
            && Consistent(f', v.log) && Log(f') == Log(f) + [p]
            && Reaction(v, f, Prop(p)) == [Ack(p)]
  {
    hide WellSaved, StateChanges, Dense, LastId;
    NextEntry(v, f, p);
    AddressedOne(Ack(p), v.leader);
    assert f.committed + (f.queue + [p]) == Log(f) + [p];
  }

  /** A state change at the head of a link. */
  lemma EntryArrives(p: Proposal, rest: seq<ZabMsg>, held: nat)
    requires IsStateChange(p)
    ensures var down := [Prop(p)] + rest;
            && (Plain(down) <==> Plain(rest)) && Commits(down) == Commits(rest)
            && (NeverOutruns(down, held) <==> NeverOutruns(rest, held + 1))
  {
    var down := [Prop(p)] + rest;
    assert down[1..] == rest && down[0] == Prop(p);
  }

  /** A follower that receives state changes is past acknowledging NewLeader: the log has grown. */
  lemma OnEntry(v: View, f: Node, p: Proposal, rest: seq<ZabMsg>, up: seq<ZabMsg>, systems: nat)
    requires ViewOk(v) && Follower(v, f, [Prop(p)] + rest, up) && Ready(v, f, [Prop(p)] + rest, up) && IsStateChange(p)
    ensures StepKept(v, f, Prop(p), rest, up, Handled(v, f, Prop(p), systems))
  {
    EntryIsNext(v, f, p, rest, up);
    ReceiveEffect(v, f, p, systems);
    hide *;
    AppendProjections(up, [Ack(p)]);
    One(Ack(p));
    EntryKept(v, f, p, rest, up, Handled(v, f, Prop(p), systems));
  }

  /** The next entry of the leader's log is what arrives. */
  lemma EntryIsNext(v: View, f: Node, p: Proposal, rest: seq<ZabMsg>, up: seq<ZabMsg>)
    requires ViewOk(v) && Follower(v, f, [Prop(p)] + rest, up) && Ready(v, f, [Prop(p)] + rest, up) && IsStateChange(p)
    ensures v.open && f.coordinator == v.leader != f.name && Consistent(f, v.log) && !f.track.active
    ensures |Log(f)| < |v.log| && p == v.log[|Log(f)|]
    ensures Follower(v, f, [Prop(p)] + rest, up)
  {
    hide WellSaved, StateChanges, Dense, LastId, Consistent, Acks, Syncs, Carried, Plain, Commits, NeverOutruns;
    CarriedHead(v, |Log(f)|, Prop(p), rest);
  }

  lemma EntryKept(v: View, f: Node, p: Proposal, rest: seq<ZabMsg>, up: seq<ZabMsg>, f': Node)
    requires Follower(v, f, [Prop(p)] + rest, up) && Ready(v, f, [Prop(p)] + rest, up) && v.open && IsStateChange(p)
    requires f' == f.(epoch := p.epoch, count := p.count, saved := f.saved + [p], queue := f.queue + [p],
                      outbox := f.outbox + Addressed(Reaction(v, f, Prop(p)), v.leader))
    requires Consistent(f', v.log) && Log(f') == Log(f) + [p] && Reaction(v, f, Prop(p)) == [Ack(p)]
    requires Acks(up + [Ack(p)]) == Acks(up) + [p] && Syncs(up + [Ack(p)]) == Syncs(up)
    ensures StepKept(v, f, Prop(p), rest, up, f')
  {
    hide WellSaved, StateChanges, Dense, LastId, Consistent, Addressed, Acks, Syncs, Carried, Plain, Commits, NeverOutruns, Reaction, Log;
    EntryArrives(p, rest, |f.queue|);
    CarriedHead(v, |Log(f)|, Prop(p), rest);
    OneMoreAck(v, Log(f), p, Acks(up));
    assert Ready(v, f', rest, up + [Ack(p)]);
  }

  lemma OneMoreAck(v: View, log: seq<Proposal>, p: Proposal, acks: seq<Proposal>)
    requires AcksInOrder(v, log, acks)
    ensures AcksInOrder(v, log + [p], acks + [p])
  {
  }

  /** COMMIT commits the head of the queue, and there always is one. */
  lemma CommitEffect(v: View, f: Node, rest: seq<ZabMsg>, up: seq<ZabMsg>, systems: nat)
    requires ViewOk(v) && Follower(v, f, [COMMIT_MSG] + rest, up) && Ready(v, f, [COMMIT_MSG] + rest, up)
    ensures f.queue != []
    ensures var f' := Handled(v, f, COMMIT_MSG, systems);
            f' == f.(queue := f.queue[1..], committed := f.committed + [f.queue[0]]) && Consistent(f', v.log)
  {
    hide WellSaved, StateChanges, Dense, LastId;
    assert ([COMMIT_MSG] + rest)[0] == COMMIT_MSG;
    assert f.committed + [f.queue[0]] + f.queue[1..] == f.committed + f.queue;
  }

  lemma OnCommitMessage(v: View, f: Node, rest: seq<ZabMsg>, up: seq<ZabMsg>, systems: nat)
    requires ViewOk(v) && Follower(v, f, [COMMIT_MSG] + rest, up) && Ready(v, f, [COMMIT_MSG] + rest, up)
    ensures StepKept(v, f, COMMIT_MSG, rest, up, Handled(v, f, COMMIT_MSG, systems))
  {
    hide WellSaved, StateChanges, Dense, Handled, LastId, Consistent, Acks, Syncs;
    var f', down := Handled(v, f, COMMIT_MSG, systems), [COMMIT_MSG] + rest;
    assert down[1..] == rest && down[0] == COMMIT_MSG;
    CommitEffect(v, f, rest, up, systems);
    assert up + [] == up && f.outbox + [] == f.outbox;
    assert Ready(v, f', rest, up);
  }

  /** Error notices change nothing but the list of denied requests. */
  lemma NoticeEffect(v: View, f: Node, m: ZabMsg, systems: nat)
    requires m.Err? || m.SyncErr?
    ensures Handled(v, f, m, systems) == if m.Err? then f.(failed := f.failed + [m.denied]) else f
    ensures Reaction(v, f, m) == []
  {
  }

  /** A notice at the head of a link. */
  lemma NoticeArrives(m: ZabMsg, rest: seq<ZabMsg>, held: nat)
    requires m.Err? || m.SyncErr?
    ensures var down := [m] + rest;
            && (Plain(down) <==> Plain(rest)) && Commits(down) == Commits(rest) && Carried(down) == Carried(rest)
            && (OnlyStateChanges(down) ==> OnlyStateChanges(rest)) && (NeverOutruns(down, held) <==> NeverOutruns(rest, held))
            && (forall p :: down != [Prop(p)])
  {
    var down := [m] + rest;
    assert down[1..] == rest && down[0] == m;
  }

  lemma NoAnnouncement(ms: seq<ZabMsg>, nl: Proposal)
    requires Plain(ms) || OnlyStateChanges(ms)
    ensures nl.kind == NEW_LEADER ==> ms != [Prop(nl)]
  {
  }

  lemma SameLog(n: Node, n': Node)
    requires n'.saved == n.saved
    ensures Log(n') == Log(n)
  {
  }

  lemma OnNotice(v: View, f: Node, m: ZabMsg, rest: seq<ZabMsg>, up: seq<ZabMsg>, systems: nat)
    requires ViewOk(v) && Follower(v, f, [m] + rest, up) && (m.Err? || m.SyncErr?)
    ensures StepKept(v, f, m, rest, up, Handled(v, f, m, systems))
  {
    hide WellSaved, StateChanges, Dense, LastId, Acks, Syncs, Handled, Reaction, Log, Carried, Plain, Commits, NeverOutruns;
    hide OnlyStateChanges;
    var f', down := Handled(v, f, m, systems), [m] + rest;
    NoticeEffect(v, f, m, systems);
    NoticeArrives(m, rest, |f.queue|);
    assert up + [] == up && f.outbox + [] == f.outbox;
    SameLog(f, f');
    assert Addressed([], v.leader) == [];
    if CatchingUp(v, f, down, up) {
      assert CatchingUp(v, f', rest, up);
    } else {
      assert Ready(v, f', rest, up);
    }
    if Plain(rest) || OnlyStateChanges(rest) { NoAnnouncement(rest, v.nl); }
  }

  /** Handling any message from the leader keeps a follower in step with it. */
  lemma FollowerStep(v: View, f: Node, m: ZabMsg, rest: seq<ZabMsg>, up: seq<ZabMsg>, systems: nat)
    requires ViewOk(v) && Follower(v, f, [m] + rest, up)
    ensures StepKept(v, f, m, rest, up, Handled(v, f, m, systems))
  {
    hide WellSaved, StateChanges, Dense, LastId, Acks, Syncs, Handled, StepKept, Consistent, Carried, Commits, NeverOutruns;
    var down := [m] + rest;
    assert down[1..] == rest && down[0] == m;
    if Waiting(v, f, down, up) {
      assert |down| == 1 && rest == [];
      OnNewLeaderMessage(v, f, up, systems);
    } else if m.Err? || m.SyncErr? {
      OnNotice(v, f, m, rest, up, systems);
    } else if CatchingUp(v, f, down, up) {
      OnCatchUpEntry(v, f, m.prop, rest, up, systems);
    } else if IsStateChange(m.prop) {
      OnEntry(v, f, m.prop, rest, up, systems);
    } else {
      assert m == COMMIT_MSG;
      OnCommitMessage(v, f, rest, up, systems);
    }
  }
}
