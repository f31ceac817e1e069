/** A leader's answer to a Sync request: the state changes the follower lacks, read from the
    epoch files one epoch after the other. */
module SyncReply {
  import opened Zxid
  import opened Messages
  import opened Channel
  import opened ProposalLog

  // ---- Well-formed logs ----

  /** `b` may follow `a` in a log: the next count of the same epoch, or count 1 of a later one. */
  predicate Follows(a: Proposal, b: Proposal) {
    || (b.epoch == a.epoch && b.count == a.count + 1)
    || (b.epoch > a.epoch && b.count == 1)
  }

  function LastId(ps: seq<Proposal>): uint32 {
    if ps == [] then 0 else ps[|ps| - 1].Id()
  }

  /** The proposals a node has saved, in the order it saved them: state changes with consecutive
      counts per epoch, and NewLeader entries each ahead of its epoch's state changes. */
  ghost predicate WellSaved(saved: seq<Proposal>) {
    saved == [] ||
    var init, last := saved[..|saved| - 1], saved[|saved| - 1];
    var scs := StateChanges(init);
    && WellSaved(init)
    && Encodable(last)
    && (IsStateChange(last) || last.kind == NEW_LEADER)
    && (IsStateChange(last) ==> if scs == [] then last.count == 1 else Follows(scs[|scs| - 1], last))
    && (!IsStateChange(last) ==> last.count == 0 && (scs == [] || scs[|scs| - 1].epoch < last.epoch))
  }

  /** The state changes of a log, on their own. */
  ghost predicate Dense(scs: seq<Proposal>) {
    scs == [] ||
    var init, last := scs[..|scs| - 1], scs[|scs| - 1];
    && Dense(init)
    && IsStateChange(last) && Encodable(last)
    && if init == [] then last.count == 1 else Follows(init[|init| - 1], last)
  }

  lemma WellSavedAppend(saved: seq<Proposal>, p: Proposal)
    requires WellSaved(saved) && Encodable(p)
    requires
      var scs := StateChanges(saved);
      || (IsStateChange(p) && if scs == [] then p.count == 1 else Follows(scs[|scs| - 1], p))
      || (p.kind == NEW_LEADER && p.count == 0 && (scs == [] || scs[|scs| - 1].epoch < p.epoch))
    ensures WellSaved(saved + [p])
    ensures StateChanges(saved + [p]) == StateChanges(saved) + if IsStateChange(p) then [p] else []
  {
    StateChangesAppend(saved, p);
    assert (saved + [p])[..|saved|] == saved;
  }

  lemma {:induction false} WellSavedDense(saved: seq<Proposal>)
    requires WellSaved(saved)
    ensures Dense(StateChanges(saved))
    ensures AllEncodable(saved)
  {
    if saved != [] {
      WellSavedDense(saved[..|saved| - 1]);
    }
  }

  lemma {:induction false} DensePrefix(scs: seq<Proposal>, n: nat)
    requires Dense(scs) && n <= |scs|
    ensures Dense(scs[..n])
  {
    if n < |scs| {
      DensePrefix(scs[..|scs| - 1], n);
      assert scs[..|scs| - 1][..n] == scs[..n];
    } else {
      assert scs[..n] == scs;
    }
  }

  /** Zxids increase strictly along a log. */
  lemma {:induction false} DenseIncreasing(scs: seq<Proposal>, i: nat, j: nat)
    requires Dense(scs) && i < j < |scs|
    ensures scs[i].Id() < scs[j].Id() && scs[i].epoch <= scs[j].epoch
    decreases |scs|
  {
    var init := scs[..|scs| - 1];
    if j < |scs| - 1 {
      DenseIncreasing(init, i, j);
    } else if i < j - 1 {
      DenseIncreasing(init, i, j - 1);
    }
  }

  lemma {:induction false} DenseEntry(scs: seq<Proposal>, i: nat)
    requires Dense(scs) && i < |scs|
    ensures IsStateChange(scs[i]) && Encodable(scs[i]) && scs[i].count > 0 && scs[i].Id() > 0
    ensures if i == 0 then scs[i].count == 1 else Follows(scs[i - 1], scs[i])
  {
    if i < |scs| - 1 {
      DenseEntry(scs[..|scs| - 1], i);
    }
  }

  /** Two prefixes of one log end in the same zxid only if they are equal, and in zxids ordered as
      their lengths. */
  lemma LastIdOrder(scs: seq<Proposal>, m: nat, n: nat)
    requires Dense(scs) && m <= |scs| && n <= |scs|
    ensures LastId(scs[..m]) < LastId(scs[..n]) <==> m < n
    ensures LastId(scs[..m]) == LastId(scs[..n]) <==> m == n
  {
    LastIdLess(scs, m, n);
    LastIdLess(scs, n, m);
  }

  lemma LastIdLess(scs: seq<Proposal>, m: nat, n: nat)
    requires Dense(scs) && m <= |scs| && n <= |scs|
    ensures m < n ==> LastId(scs[..m]) < LastId(scs[..n])
  {
    hide Dense;
    if m < n {
      DenseEntry(scs, n - 1);
      if m > 0 {
        DenseIncreasing(scs, m - 1, n - 1);
      }
    }
  }

  // ---- The reply ----

  /** The latest `k` records of one epoch: reading fails if there is no file, or on a record
      without content. */
  function ReadRecords(records: seq<Proposal>, k: int): Result<seq<Proposal>> {
    if k <= 0 then Ok([])
    else if records != [] && HasContent(LastK(records, k)) then Ok(LastK(records, k))
    else Failed
  }

  /** What is sent of one epoch: its latest `lacking` records, or an error notice. */
  function EpochReply(records: seq<Proposal>, lacking: int, req: Request): seq<ZabMsg> {
    match ReadRecords(records, lacking)
    case Failed => [SyncErr(req)]
    case Ok(ps) => AsMessages(ps)
  }

  function AsMessages(ps: seq<Proposal>): (ms: seq<ZabMsg>)
    ensures |ms| == |ps|
  {
    if ps == [] then [] else [Prop(ps[0])] + AsMessages(ps[1..])
  }

  function HighestCount(records: seq<Proposal>): int {
    match ReadRecords(records, 1)
    case Failed => 0
    case Ok(ps) => ps[|ps| - 1].count
  }

  /** An earlier epoch: its highest count is read first, and counts as 0 if that fails. */
  function EarlierEpoch(records: seq<Proposal>, count: int, req: Request): seq<ZabMsg> {
    (if ReadRecords(records, 1).Failed? then [SyncErr(req)] else [])
    + EpochReply(records, HighestCount(records) - count, req)
  }

  /** Epoch by epoch from `epoch` up to the leader's own, which ends at `highCount`. */
  function ReplyFrom(saved: seq<Proposal>, epoch: uint16, count: uint16, highEpoch: uint16, highCount: uint16,
                     req: Request): seq<ZabMsg>
    requires epoch <= highEpoch
    decreases highEpoch - epoch
  {
    var records := EpochRecords(saved, epoch);
    if epoch == highEpoch then EpochReply(records, highCount - count, req)
    else EarlierEpoch(records, count, req) + ReplyFrom(saved, epoch + 1, 0, highEpoch, highCount, req)
  }

  function Reply(saved: seq<Proposal>, highEpoch: uint16, highCount: uint16, req: Request): seq<ZabMsg>
    requires |req.content| >= 4
  {
    var (epoch, count) := Decompose(BytesToUint32(req.content));
    if epoch > highEpoch then [SyncErr(req)]
    else ReplyFrom(saved, epoch, count, highEpoch, highCount, req)
  }

  // ---- The reply is exactly the missing suffix ----

  predicate AllStateChanges(ps: seq<Proposal>) {
    ps == [] || (IsStateChange(ps[0]) && AllStateChanges(ps[1..]))
  }

  lemma {:induction false} AllStateChangesAppend(ps: seq<Proposal>, p: Proposal)
    ensures AllStateChanges(ps + [p]) <==> AllStateChanges(ps) && IsStateChange(p)
  {
    if ps != [] {
      assert (ps + [p])[1..] == ps[1..] + [p];
      AllStateChangesAppend(ps[1..], p);
    }
  }

  lemma {:induction false} AllStateChangesDrop(ps: seq<Proposal>, n: nat)
    requires AllStateChanges(ps) && n <= |ps|
    ensures AllStateChanges(ps[n..])
  {
    if n > 0 {
      AllStateChangesDrop(ps[1..], n - 1);
      assert ps[1..][n - 1..] == ps[n..];
    }
  }

  lemma {:induction false} AsMessagesCarried(ps: seq<Proposal>)
    requires AllStateChanges(ps)
    ensures Carried(AsMessages(ps)) == ps
    ensures OnlyStateChanges(AsMessages(ps))
  {
    if ps != [] {
      var ms := AsMessages(ps);
      assert ms[1..] == AsMessages(ps[1..]);
      AsMessagesCarried(ps[1..]);
    }
  }

  /** The state changes with a zxid above (epoch, count). */
  function Later(scs: seq<Proposal>, epoch: int, count: int): seq<Proposal> {
    if scs == [] then []
    else
      var init, last := Later(scs[..|scs| - 1], epoch, count), scs[|scs| - 1];
      if last.epoch > epoch || (last.epoch == epoch && last.count > count) then init + [last] else init
  }

  /** A log has nothing in epochs above its last one. */
  lemma {:induction false} NothingAbove(scs: seq<Proposal>, epoch: int, count: int)
    requires Dense(scs) && (scs == [] || scs[|scs| - 1].epoch < epoch)
    ensures Later(scs, epoch, count) == []
    ensures 0 <= epoch < 0x1_0000 ==> EpochRecords(scs, epoch) == []
  {
    if scs != [] {
      NothingAbove(scs[..|scs| - 1], epoch, count);
    }
  }

  /** The last count in an epoch is the number of its state changes. */
  lemma {:induction false} LastCount(scs: seq<Proposal>, epoch: uint16)
    requires Dense(scs)
    ensures EpochRecords(scs, epoch) != [] ==> EpochRecords(scs, epoch)[|EpochRecords(scs, epoch)| - 1].count == |EpochRecords(scs, epoch)|
    ensures scs != [] && scs[|scs| - 1].epoch == epoch ==> scs[|scs| - 1].count == |EpochRecords(scs, epoch)|
  {
    if scs != [] {
      var init, last := scs[..|scs| - 1], scs[|scs| - 1];
      LastCount(init, epoch);
      if last.epoch == epoch && (init == [] || init[|init| - 1].epoch < epoch) {
        NothingAbove(init, epoch, 0);
      }
    }
  }

  /** What is later than (epoch, count) is the rest of the epoch followed by the later epochs. */
  lemma {:induction false} LaterSplit(scs: seq<Proposal>, epoch: uint16, count: uint16)
    requires Dense(scs) && count <= |EpochRecords(scs, epoch)|
    ensures Later(scs, epoch, count) == EpochRecords(scs, epoch)[count..] + Later(scs, epoch + 1, 0)
  {
    hide *;
    if scs == [] {
      LaterStep(scs, epoch, count);
      LaterStep(scs, epoch + 1, 0);
      RecordsStep(scs, epoch);
    } else {
      var init, last := scs[..|scs| - 1], scs[|scs| - 1];
      DenseStep(scs);
      LastCount(scs, epoch);
      LaterStep(scs, epoch, count);
      LaterStep(scs, epoch + 1, 0);
      RecordsStep(scs, epoch);
      var older := EpochRecords(init, epoch);
      if last.epoch == epoch && count < last.count {
        NothingAbove(init, epoch + 1, 0);
        LaterSplit(init, epoch, count);
        SuffixGrows(older, last, count);
        assert older[count..] + [] == older[count..];
      } else if last.epoch == epoch {
        NothingAbove(init, epoch + 1, 0);
        LastReached(scs, epoch, count);
        assert EpochRecords(scs, epoch)[count..] == [];
      } else if last.epoch > epoch {
        LaterSplit(init, epoch, count);
        assert older[count..] + (Later(init, epoch + 1, 0) + [last]) == older[count..] + Later(init, epoch + 1, 0) + [last];
      } else {
        LaterSplit(init, epoch, count);
      }
    }
  }

  lemma DenseStep(scs: seq<Proposal>)
    requires Dense(scs) && scs != []
    ensures Dense(scs[..|scs| - 1]) && scs[|scs| - 1].count > 0
    ensures |scs| > 1 ==> scs[|scs| - 2].epoch <= scs[|scs| - 1].epoch
  {
    DenseEntry(scs, |scs| - 1);
    hide Encodable, IsStateChange;
  }

  lemma LaterStep(scs: seq<Proposal>, epoch: int, count: int)
    ensures scs == [] ==> Later(scs, epoch, count) == []
    ensures scs != [] ==>
      var init, last := Later(scs[..|scs| - 1], epoch, count), scs[|scs| - 1];
      Later(scs, epoch, count) == if last.epoch > epoch || (last.epoch == epoch && last.count > count) then init + [last] else init
  {
  }

  lemma RecordsStep(scs: seq<Proposal>, epoch: uint16)
    ensures scs == [] ==> EpochRecords(scs, epoch) == []
    ensures scs != [] ==>
      var init, last := EpochRecords(scs[..|scs| - 1], epoch), scs[|scs| - 1];
      EpochRecords(scs, epoch) == if last.epoch == epoch then init + [last] else init
  {
  }

  lemma LastReached(scs: seq<Proposal>, epoch: uint16, count: uint16)
    requires Dense(scs) && scs != [] && scs[|scs| - 1].epoch == epoch && scs[|scs| - 1].count == count
    ensures Later(scs, epoch, count) == []
  {
    hide Dense;
    LaterNone(scs, epoch, count);
  }

  /** Nothing in a log is later than a zxid that its last entry does not exceed. */
  lemma {:induction false} LaterNone(scs: seq<Proposal>, epoch: uint16, count: uint16)
    requires Dense(scs)
    requires scs == [] || scs[|scs| - 1].Id() <= Compose(epoch, count)
    ensures Later(scs, epoch, count) == []
  {
    if scs != [] {
      var last := scs[|scs| - 1];
      ComposeOrder(last.epoch, last.count, epoch, count);
      ComposeOrder(epoch, count, last.epoch, last.count);
      LaterNone(scs[..|scs| - 1], epoch, count);
    }
  }

  /** What is later than the n-th state change is the rest of the log. */
  lemma {:induction false} LaterIsSuffix(scs: seq<Proposal>, n: nat, epoch: uint16, count: uint16)
    requires Dense(scs) && n <= |scs| && LastId(scs[..n]) == Compose(epoch, count)
    ensures Later(scs, epoch, count) == scs[n..]
    decreases |scs| - n, |scs|
  {
    hide Follows;
    if n == |scs| {
      assert scs[..n] == scs;
      LaterNone(scs, epoch, count);
    } else {
      var init, last := scs[..|scs| - 1], scs[|scs| - 1];
      assert init[..n] == scs[..n];
      LaterIsSuffix(init, n, epoch, count);
      LastIdLess(scs, n, |scs|);
      assert scs[..|scs|] == scs;
      ComposeOrder(epoch, count, last.epoch, last.count);
      hide Dense, LastId, Compose;
      assert scs[n..] == init[n..] + [last];
    }
  }

  lemma LastKOne(records: seq<Proposal>)
    requires records != [] ==> HasContent(records)
    ensures HighestCount(records) == if records == [] then 0 else records[|records| - 1].count
  {
    if records != [] {
      LastKHasContent(records, 1);
      assert LastK(records, 1) == [records[|records| - 1]];
    }
  }

  predicate EndsWith(records: seq<Proposal>, scs: seq<Proposal>) {
    |scs| <= |records| && records[|records| - |scs|..] == scs
  }

  lemma EndsGrow(records: seq<Proposal>, scs: seq<Proposal>, p: Proposal)
    requires EndsWith(records, scs)
    ensures EndsWith(records + [p], scs + [p])
  {
    SuffixGrows(records, p, |records| - |scs|);
  }

  lemma EndsEmpty(records: seq<Proposal>)
    ensures EndsWith(records, [])
  {
  }

  /** In the file of one epoch the state changes come last, and the last count is their number. */
  lemma {:induction false} EpochShape(saved: seq<Proposal>, epoch: uint16)
    requires WellSaved(saved)
    ensures var records, scs := EpochRecords(saved, epoch), EpochRecords(StateChanges(saved), epoch);
            EndsWith(records, scs) && HighestCount(records) == |scs|
  {
    hide *;
    WellSavedDense(saved);
    EpochRecordsEncodable(saved, epoch);
    LastKOne(EpochRecords(saved, epoch));
    RecordsStep(saved, epoch);
    RecordsStep(StateChanges(saved), epoch);
    WellSavedStep(saved);
    if saved == [] {
      EndsEmpty(EpochRecords(saved, epoch));
    } else {
      var init, last := saved[..|saved| - 1], saved[|saved| - 1];
      EpochShape(init, epoch);
      WellSavedDense(init);
      if last.epoch == epoch && IsStateChange(last) {
        LastCount(StateChanges(saved), epoch);
        assert StateChanges(saved)[..|StateChanges(saved)| - 1] == StateChanges(init);
        EndsGrow(EpochRecords(init, epoch), EpochRecords(StateChanges(init), epoch), last);
      } else if last.epoch == epoch {
        NothingAbove(StateChanges(init), epoch, 0);
        EndsEmpty(EpochRecords(saved, epoch));
      } else if IsStateChange(last) {
        assert StateChanges(saved)[..|StateChanges(saved)| - 1] == StateChanges(init);
      }
    }
  }

  lemma WellSavedStep(saved: seq<Proposal>)
    requires WellSaved(saved)
    ensures saved == [] ==> StateChanges(saved) == []
    ensures saved != [] ==>
      var init, last := saved[..|saved| - 1], saved[|saved| - 1];
      var scs := StateChanges(init);
      && WellSaved(init) && StateChanges(saved) == (if IsStateChange(last) then scs + [last] else scs)
      && (!IsStateChange(last) ==> last.count == 0 && (scs == [] || scs[|scs| - 1].epoch < last.epoch))
  {
  }

  lemma SuffixGrows(ps: seq<Proposal>, p: Proposal, n: nat)
    requires n <= |ps|
    ensures (ps + [p])[n..] == ps[n..] + [p]
  {
  }

  /** One epoch contributes its state changes after `count`. */
  lemma EpochReplyCarries(records: seq<Proposal>, scs: seq<Proposal>, count: int, req: Request)
    requires EndsWith(records, scs) && 0 <= count <= |scs|
    requires AllStateChanges(scs) && HasContent(records)
    ensures Carried(EpochReply(records, |scs| - count, req)) == scs[count..]
    ensures OnlyStateChanges(EpochReply(records, |scs| - count, req))
  {
    if count < |scs| {
      LastKHasContent(records, |scs| - count);
      assert LastK(records, |scs| - count) == scs[count..];
      AllStateChangesDrop(scs, count);
      AsMessagesCarried(scs[count..]);
    }
  }

  lemma {:induction false} EpochRecordsAreStateChanges(scs: seq<Proposal>, epoch: uint16)
    requires Dense(scs)
    ensures AllStateChanges(EpochRecords(scs, epoch))
  {
    if scs != [] {
      AllStateChangesAppend(EpochRecords(scs[..|scs| - 1], epoch), scs[|scs| - 1]);
      EpochRecordsAreStateChanges(scs[..|scs| - 1], epoch);
    }
  }

  lemma EpochPartCarries(saved: seq<Proposal>, epoch: uint16, count: uint16, req: Request)
    requires WellSaved(saved) && count <= |EpochRecords(StateChanges(saved), epoch)|
    ensures var records, scs := EpochRecords(saved, epoch), EpochRecords(StateChanges(saved), epoch);
            && Carried(EpochReply(records, |scs| - count, req)) == scs[count..]
            && OnlyStateChanges(EpochReply(records, |scs| - count, req))
            && Carried(EarlierEpoch(records, count, req)) == scs[count..]
            && OnlyStateChanges(EarlierEpoch(records, count, req))
  {
    hide *;
    var scs, records := EpochRecords(StateChanges(saved), epoch), EpochRecords(saved, epoch);
    WellSavedDense(saved);
    EpochShape(saved, epoch);
    EpochRecordsEncodable(saved, epoch);
    EpochRecordsAreStateChanges(StateChanges(saved), epoch);
    EpochReplyCarries(records, scs, count, req);
    EarlierCarries(records, count, req);
  }

  /** An error notice in front carries nothing. */
  lemma EarlierCarries(records: seq<Proposal>, count: int, req: Request)
    ensures var rest := EpochReply(records, HighestCount(records) - count, req);
            && Carried(EarlierEpoch(records, count, req)) == Carried(rest)
            && (OnlyStateChanges(EarlierEpoch(records, count, req)) <==> OnlyStateChanges(rest))
  {
    hide EpochReply, HighestCount, ReadRecords;
    var notice, rest := [SyncErr(req)], EpochReply(records, HighestCount(records) - count, req);
    assert notice[1..] == [];
    AppendProjections(notice, rest);
    assert [] + rest == rest && [] + Carried(rest) == Carried(rest);
  }

  lemma {:induction false} ReplyFromCarries(saved: seq<Proposal>, epoch: uint16, count: uint16, highEpoch: uint16,
                                            highCount: uint16, req: Request)
    requires WellSaved(saved) && epoch <= highEpoch
    requires count <= |EpochRecords(StateChanges(saved), epoch)|
    requires highCount == |EpochRecords(StateChanges(saved), highEpoch)|
    requires Later(StateChanges(saved), highEpoch + 1, 0) == []
    ensures Carried(ReplyFrom(saved, epoch, count, highEpoch, highCount, req)) ==
            Later(StateChanges(saved), epoch, count)
    ensures OnlyStateChanges(ReplyFrom(saved, epoch, count, highEpoch, highCount, req))
    decreases highEpoch - epoch
  {
    hide StateChanges, EpochRecords, WellSaved, Dense, EpochReply, EarlierEpoch;
    WellSavedDense(saved);
    EpochPartCarries(saved, epoch, count, req);
    LaterSplit(StateChanges(saved), epoch, count);
    if epoch < highEpoch {
      ReplyFromCarries(saved, epoch + 1, 0, highEpoch, highCount, req);
      AppendProjections(EarlierEpoch(EpochRecords(saved, epoch), count, req),
                        ReplyFrom(saved, epoch + 1, 0, highEpoch, highCount, req));
    }
  }

  /** For a follower that holds the first `n` state changes of the leader's log, the reply carries
      exactly the others, in order, across all epochs. */
  lemma ReplyIsMissingSuffix(saved: seq<Proposal>, highEpoch: uint16, highCount: uint16, n: nat, req: Request)
    requires WellSaved(saved) && n <= |StateChanges(saved)|
    requires forall j :: 0 <= j < |StateChanges(saved)| ==> StateChanges(saved)[j].epoch <= highEpoch
    requires highCount == |EpochRecords(StateChanges(saved), highEpoch)|
    requires req.content == Uint32ToBytes(LastId(StateChanges(saved)[..n]))
    ensures Carried(Reply(saved, highEpoch, highCount, req)) == StateChanges(saved)[n..]
    ensures OnlyStateChanges(Reply(saved, highEpoch, highCount, req))
  {
    hide *;
    var scs := StateChanges(saved);
    var sent := LastId(scs[..n]);
    var (epoch, count) := Decompose(sent);
    WellSavedDense(saved);
    PositionInLog(scs, n, highEpoch);
    ReplyStarts(saved, highEpoch, highCount, req, sent);
    LaterIsSuffix(scs, n, epoch, count);
    NothingAbove(scs, highEpoch + 1, 0);
    ReplyFromCarries(saved, epoch, count, highEpoch, highCount, req);
  }

  /** The zxid of the n-th entry names its epoch and its place in it. */
  lemma PositionInLog(scs: seq<Proposal>, n: nat, highEpoch: uint16)
    requires Dense(scs) && n <= |scs| && forall j :: 0 <= j < |scs| ==> scs[j].epoch <= highEpoch
    ensures var (epoch, count) := Decompose(LastId(scs[..n]));
            Compose(epoch, count) == LastId(scs[..n]) && epoch <= highEpoch && count <= |EpochRecords(scs, epoch)|
  {
    hide Dense, EpochRecords;
    if n > 0 {
      var p := scs[n - 1];
      ComposeDecompose(p.epoch, p.count, p.Id());
      DensePrefix(scs, n);
      LastCount(scs[..n], p.epoch);
      EpochRecordsGrow(scs, n, p.epoch);
      assert scs[..n][n - 1] == p;
    }
  }

  lemma ReplyStarts(saved: seq<Proposal>, highEpoch: uint16, highCount: uint16, req: Request, sent: uint32)
    requires req.content == Uint32ToBytes(sent) && Decompose(sent).0 <= highEpoch
    ensures |req.content| >= 4
    ensures Reply(saved, highEpoch, highCount, req) == ReplyFrom(saved, Decompose(sent).0, Decompose(sent).1, highEpoch, highCount, req)
  {
    Uint32RoundTrip(sent, []);
    hide ReplyFrom, Uint32ToBytes, BytesToUint32, Decompose;
  }

  lemma {:induction false} EpochRecordsGrow(scs: seq<Proposal>, n: nat, epoch: uint16)
    requires n <= |scs|
    ensures |EpochRecords(scs[..n], epoch)| <= |EpochRecords(scs, epoch)|
  {
    if n < |scs| {
      EpochRecordsGrow(scs[..|scs| - 1], n, epoch);
      assert scs[..|scs| - 1][..n] == scs[..n];
    } else {
      assert scs[..n] == scs;
    }
  }

  // ---- Error notices in a reply ----

  function Notices(ms: seq<ZabMsg>): nat {
    if ms == [] then 0 else (if ms[0].SyncErr? then 1 else 0) + Notices(ms[1..])
  }

  lemma {:induction false} NoticesAppend(a: seq<ZabMsg>, b: seq<ZabMsg>)
    ensures Notices(a + b) == Notices(a) + Notices(b)
  {
    if a == [] {
      assert a + b == b;
    } else {
      assert (a + b)[1..] == a[1..] + b;
      NoticesAppend(a[1..], b);
    }
  }

  lemma {:induction false} NoNoticeInMessages(ps: seq<Proposal>)
    ensures Notices(AsMessages(ps)) == 0
  {
    if ps != [] {
      NoNoticeInMessages(ps[1..]);
      assert AsMessages(ps)[1..] == AsMessages(ps[1..]);
    }
  }

  /** How many epochs before `highEpoch`, from `epoch` on, have nothing saved. */
  function Gaps(saved: seq<Proposal>, epoch: uint16, highEpoch: uint16): nat
    requires epoch <= highEpoch
    decreases highEpoch - epoch
  {
    if epoch == highEpoch then 0
    else (if EpochRecords(saved, epoch) == [] then 1 else 0) + Gaps(saved, epoch + 1, highEpoch)
  }

  lemma EpochReplyNotices(records: seq<Proposal>, lacking: int, req: Request)
    requires HasContent(records)
    ensures Notices(EpochReply(records, lacking, req)) == if lacking > 0 && records == [] then 1 else 0
  {
    hide LastK;
    LastKHasContent(records, lacking);
    NoNoticeInMessages(LastK(records, lacking));
    assert [SyncErr(req)][1..] == [];
    hide AsMessages;
    NoNoticeInMessages([]);
  }

  lemma EarlierNotices(records: seq<Proposal>, count: nat, req: Request)
    requires HasContent(records)
    ensures Notices(EarlierEpoch(records, count, req)) == if records == [] then 1 else 0
  {
    hide LastK, EpochReply, HasContent;
    EpochReplyNotices(records, HighestCount(records) - count, req);
    HighestOfNone();
    LastKHasContent(records, 1);
    assert [SyncErr(req)][1..] == [];
    NoticesAppend(if ReadRecords(records, 1).Failed? then [SyncErr(req)] else [], EpochReply(records, HighestCount(records) - count, req));
  }

  lemma HighestOfNone()
    ensures HighestCount([]) == 0
  {
  }

  lemma {:induction false} ReplyFromNotices(saved: seq<Proposal>, epoch: uint16, count: uint16, highEpoch: uint16, highCount: uint16,
                                            req: Request)
    requires WellSaved(saved) && epoch <= highEpoch && highCount == |EpochRecords(StateChanges(saved), highEpoch)|
    ensures Notices(ReplyFrom(saved, epoch, count, highEpoch, highCount, req)) == Gaps(saved, epoch, highEpoch)
    decreases highEpoch - epoch
  {
    hide WellSaved, StateChanges, EpochRecords, EpochReply, EarlierEpoch, Notices, AllFit;
    var records := EpochRecords(saved, epoch);
    WellSavedDense(saved);
    EpochRecordsEncodable(saved, epoch);
    if epoch == highEpoch {
      EpochShape(saved, epoch);
      EpochReplyNotices(records, highCount - count, req);
    } else {
      EarlierNotices(records, count, req);
      ReplyFromNotices(saved, epoch + 1, 0, highEpoch, highCount, req);
      NoticesAppend(EarlierEpoch(records, count, req), ReplyFrom(saved, epoch + 1, 0, highEpoch, highCount, req));
    }
  }

  /** A follower whose epoch is ahead of the leader's gets one error notice and nothing else; any other gets
      one notice for each epoch, from its own up to the leader's, in which nothing was saved. */
  lemma ReplyNotices(saved: seq<Proposal>, highEpoch: uint16, highCount: uint16, req: Request)
    requires WellSaved(saved) && highCount == |EpochRecords(StateChanges(saved), highEpoch)| && |req.content| >= 4
    ensures var epoch := Decompose(BytesToUint32(req.content)).0;
            && (epoch > highEpoch ==> Reply(saved, highEpoch, highCount, req) == [SyncErr(req)])
            && (epoch <= highEpoch ==> Notices(Reply(saved, highEpoch, highCount, req)) == Gaps(saved, epoch, highEpoch))
  {
    hide WellSaved, StateChanges, EpochRecords, ReplyFrom, Notices, Gaps, BytesToUint32;
    var (epoch, count) := Decompose(BytesToUint32(req.content));
    if epoch <= highEpoch { ReplyFromNotices(saved, epoch, count, highEpoch, highCount, req); }
  }
}
