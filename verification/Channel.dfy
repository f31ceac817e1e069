/** What a link carries: projections of a message sequence onto one kind of message. */
module Channel {
  import opened Zxid
  import opened Messages
  import opened Collections

  predicate IsStateChange(p: Proposal) {
    p.kind == STATE_CHANGE
  }

  /** The state-change proposals among saved proposals, in order. */
  function StateChanges(ps: seq<Proposal>): seq<Proposal> {
    if ps == [] then []
    else
      var init, last := StateChanges(ps[..|ps| - 1]), ps[|ps| - 1];
      if IsStateChange(last) then init + [last] else init
  }

  /** The state-change proposals carried by a link. */
  function Carried(ms: seq<ZabMsg>): seq<Proposal> {
    if ms == [] then []
    else (if ms[0].Prop? && IsStateChange(ms[0].prop) then [ms[0].prop] else []) + Carried(ms[1..])
  }

  function Commits(ms: seq<ZabMsg>): nat {
    if ms == [] then 0
    else (if ms[0].Prop? && ms[0].prop.kind == COMMIT then 1 else 0) + Commits(ms[1..])
  }

  function Acks(ms: seq<ZabMsg>): seq<Proposal> {
    if ms == [] then [] else (if ms[0].Ack? then [ms[0].ack] else []) + Acks(ms[1..])
  }

  function Syncs(ms: seq<ZabMsg>): seq<Request> {
    if ms == [] then []
    else (if ms[0].Req? && ms[0].req.kind == Sync then [ms[0].req] else []) + Syncs(ms[1..])
  }

  /** State changes, apart from error notices. */
  predicate OnlyStateChanges(ms: seq<ZabMsg>) {
    ms == [] || ((ms[0].SyncErr? || (ms[0].Prop? && IsStateChange(ms[0].prop))) && OnlyStateChanges(ms[1..]))
  }

  /** No COMMIT on the link overtakes the proposals: started with `held` proposals queued, every
      COMMIT finds one. */
  predicate NeverOutruns(ms: seq<ZabMsg>, held: nat) {
    ms == [] ||
    if ms[0].Prop? && IsStateChange(ms[0].prop) then NeverOutruns(ms[1..], held + 1)
    else if ms[0].Prop? && ms[0].prop.kind == COMMIT then held > 0 && NeverOutruns(ms[1..], held - 1)
    else NeverOutruns(ms[1..], held)
  }

  lemma StateChangesAppend(ps: seq<Proposal>, p: Proposal)
    ensures StateChanges(ps + [p]) == StateChanges(ps) + (if IsStateChange(p) then [p] else [])
  {
    assert (ps + [p])[..|ps|] == ps;
  }

  lemma {:induction false} AppendCarried(a: seq<ZabMsg>, b: seq<ZabMsg>)
    ensures Carried(a + b) == Carried(a) + Carried(b)
  {
    if a == [] {
      assert a + b == b;
    } else {
      var m, rest := a[0], a[1..];
      assert (a + b)[1..] == rest + b;
      AppendCarried(rest, b);
      var head := if m.Prop? && IsStateChange(m.prop) then [m.prop] else [];
      assert Carried(a) == head + Carried(rest);
      assert Carried(a + b) == head + Carried(rest + b);
      Regroup(head, Carried(rest), Carried(b));
    }
  }

  lemma {:induction false} AppendCommits(a: seq<ZabMsg>, b: seq<ZabMsg>)
    ensures Commits(a + b) == Commits(a) + Commits(b)
  {
    if a == [] {
      assert a + b == b;
    } else {
      assert (a + b)[1..] == a[1..] + b;
      AppendCommits(a[1..], b);
    }
  }

  lemma {:induction false} AppendAcks(a: seq<ZabMsg>, b: seq<ZabMsg>)
    ensures Acks(a + b) == Acks(a) + Acks(b)
  {
    if a == [] {
      assert a + b == b;
    } else {
      var m, rest := a[0], a[1..];
      assert (a + b)[1..] == rest + b;
      AppendAcks(rest, b);
      var head := if m.Ack? then [m.ack] else [];
      assert Acks(a) == head + Acks(rest);
      assert Acks(a + b) == head + Acks(rest + b);
      Regroup(head, Acks(rest), Acks(b));
    }
  }

  lemma {:induction false} AppendSyncs(a: seq<ZabMsg>, b: seq<ZabMsg>)
    ensures Syncs(a + b) == Syncs(a) + Syncs(b)
  {
    if a == [] {
      assert a + b == b;
    } else {
      var m, rest := a[0], a[1..];
      assert (a + b)[1..] == rest + b;
      AppendSyncs(rest, b);
      var head := if m.Req? && m.req.kind == Sync then [m.req] else [];
      assert Syncs(a) == head + Syncs(rest);
      assert Syncs(a + b) == head + Syncs(rest + b);
      Regroup(head, Syncs(rest), Syncs(b));
    }
  }

  lemma {:induction false} AppendOnlyStateChanges(a: seq<ZabMsg>, b: seq<ZabMsg>)
    ensures OnlyStateChanges(a + b) <==> OnlyStateChanges(a) && OnlyStateChanges(b)
  {
    if a == [] {
      assert a + b == b;
    } else {
      assert (a + b)[1..] == a[1..] + b;
      AppendOnlyStateChanges(a[1..], b);
    }
  }

  /** Every projection of a link distributes over appending messages. */
  lemma AppendProjections(a: seq<ZabMsg>, b: seq<ZabMsg>)
    ensures Carried(a + b) == Carried(a) + Carried(b)
    ensures Commits(a + b) == Commits(a) + Commits(b)
    ensures Acks(a + b) == Acks(a) + Acks(b)
    ensures Syncs(a + b) == Syncs(a) + Syncs(b)
    ensures OnlyStateChanges(a + b) <==> OnlyStateChanges(a) && OnlyStateChanges(b)
  {
    hide Carried, Commits, Acks, Syncs, OnlyStateChanges;
    AppendCarried(a, b);
    AppendCommits(a, b);
    AppendAcks(a, b);
    AppendSyncs(a, b);
    AppendOnlyStateChanges(a, b);
  }

  lemma {:induction false} NeverOutrunsAppend(a: seq<ZabMsg>, b: seq<ZabMsg>, held: nat)
    requires NeverOutruns(a, held)
    ensures Commits(a) <= held + |Carried(a)|
    ensures NeverOutruns(a + b, held) <==> NeverOutruns(b, held + |Carried(a)| - Commits(a))
    decreases a
  {
    if a == [] {
      assert a + b == b;
    } else {
      assert (a + b)[1..] == a[1..] + b;
      var m := a[0];
      NeverOutrunsAppend(a[1..], b,
        if m.Prop? && IsStateChange(m.prop) then held + 1
        else if m.Prop? && m.prop.kind == COMMIT then held - 1 else held);
    }
  }
}
