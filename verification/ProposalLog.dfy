/** The on-disk proposal log: frames of `fixed header, content, length of both`, appended to one
    file per epoch and read backwards from the end of the file. */
module ProposalLog {
  import opened Zxid
  import opened Messages

  datatype Result<+T> = Ok(value: T) | Failed

  const HEADER := 5

  function Uint16ToBytes(x: uint16): (b: seq<byte>) {
    [x % 0x100, x / 0x100]
  }

  function BytesToUint16(lo: byte, hi: byte): uint16 {
    var l: int, h: int := lo, hi;
    l + h * 0x100
  }

  /** The frame without its trailing length. */
  function Body(p: Proposal): seq<byte> {
    [p.kind] + Uint16ToBytes(p.epoch) + Uint16ToBytes(p.count) + p.content
  }

  /** The length field is a truncating conversion to 32 bits. */
  function Encode(p: Proposal): (b: seq<byte>)
    ensures |b| == HEADER + |p.content| + 4
  {
    Body(p) + Uint32ToBytes((HEADER + |p.content|) % 0x1_0000_0000)
  }

  /** The file left behind by saving `ps` in order. */
  function EncodeAll(ps: seq<Proposal>): (b: seq<byte>)
    ensures ps != [] ==> b != []
  {
    if ps == [] then [] else EncodeAll(ps[..|ps| - 1]) + Encode(ps[|ps| - 1])
  }

  /** Decoding fails on a truncated header, and on a body with no content left to read. */
  function Decode(b: seq<byte>): Result<Proposal> {
    if |b| <= HEADER then Failed
    else Ok(Proposal(b[0], BytesToUint16(b[1], b[2]), BytesToUint16(b[3], b[4]), b[HEADER..]))
  }

  /** The length field is not truncated. */
  predicate Fits(p: Proposal) {
    HEADER + |p.content| < 0x1_0000_0000
  }

  predicate Encodable(p: Proposal) {
    Fits(p) && p.content != []
  }

  function LastK<T>(s: seq<T>, k: int): seq<T> {
    if k <= 0 then [] else if k >= |s| then s else s[|s| - k..]
  }

  function Reverse<T>(s: seq<T>): (r: seq<T>)
    ensures |r| == |s|
  {
    if s == [] then [] else Reverse(s[1..]) + [s[0]]
  }

  /** One backward step: the frame that ends at `cursor`, the position its body was read from and
      the cursor afterwards. A seek before the start of the file leaves the cursor alone and
      reports position 0. */
  function StepBack(file: seq<byte>, cursor: nat): (r: Result<(Proposal, nat, nat)>)
    requires cursor <= |file|
    ensures r.Ok? ==> r.value.1 <= r.value.2 < cursor
  {
    if cursor < 4 then Failed
    else
      var at := cursor - 4;
      var length := BytesToUint32(file[at..cursor]);
      var pos := if length <= at then at - length else 0;
      var next := if length <= at then at - length else at;
      if pos + length > |file| then Failed
      else match Decode(file[pos..pos + length])
        case Failed => Failed
        case Ok(p) => Ok((p, pos, next))
  }

  /** Up to `k` proposals, newest first, read backwards from `cursor`. */
  function ReadBack(file: seq<byte>, cursor: nat, k: nat): Result<seq<Proposal>>
    requires cursor <= |file|
    decreases k
  {
    if k == 0 then Ok([])
    else match StepBack(file, cursor)
      case Failed => Failed
      case Ok((p, pos, next)) =>
        if pos == 0 then Ok([p])
        else match ReadBack(file, next, k - 1)
          case Failed => Failed
          case Ok(older) => Ok([p] + older)
  }

  /** The latest `k` proposals of a file in the order they were saved. */
  function ReadLatest(file: seq<byte>, k: int): Result<seq<Proposal>> {
    if k <= 0 then Ok([])
    else match ReadBack(file, |file|, k)
      case Failed => Failed
      case Ok(ps) => Ok(Reverse(ps))
  }

  /** The layout of a frame: kind, epoch, count, content, and the length of these four, the numbers with
      their low bytes first. */
  lemma FrameLayout(p: Proposal)
    requires Fits(p)
    ensures var b, n := Encode(p), HEADER + |p.content|;
            && HEADER == 5 && |b| == n + 4 && b[0] == p.kind && b[HEADER..n] == p.content
            && LowFirst(b[1..3]) == p.epoch && LowFirst(b[3..5]) == p.count && LowFirst(b[n..]) == n
  {
    var b, n := Encode(p), HEADER + |p.content|;
    assert b[1..3] == Uint16ToBytes(p.epoch) && b[3..5] == Uint16ToBytes(p.count) && b[n..] == Uint32ToBytes(n);
    hide Encode, Body;
    LowFirstTwo(p.epoch);
    LowFirstTwo(p.count);
    LowFirstFour(n);
  }

  /** The number whose digits to base 256 are `b`, the lowest first. */
  function LowFirst(b: seq<byte>): int {
    if b == [] then 0
    else
      var low: int := b[0];
      low + 0x100 * LowFirst(b[1..])
  }

  lemma LowFirstTwo(x: uint16)
    ensures LowFirst(Uint16ToBytes(x)) == x
  {
    var b := Uint16ToBytes(x);
    assert b[1..][1..] == [];
    assert LowFirst(b[1..]) == x / 0x100;
  }

  lemma LowFirstFour(x: uint32)
    ensures LowFirst(Uint32ToBytes(x)) == x
  {
    var b := Uint32ToBytes(x);
    Uint32RoundTrip(x, []);
    assert b[1..][1..][1..][1..] == [];
    assert LowFirst(b[1..][1..][1..]) == b[3];
    assert LowFirst(b[1..][1..]) == b[2] as int + 0x100 * b[3] as int;
    assert LowFirst(b[1..]) == b[1] as int + 0x100 * (b[2] as int + 0x100 * b[3] as int);
    hide Uint32ToBytes;
  }

  // ---- Reading backwards inverts appending ----

  lemma BodyRoundTrip(p: Proposal)
    ensures Decode(Body(p)) == if p.content == [] then Failed else Ok(p)
  {
    var b := Body(p);
    assert b[HEADER..] == p.content;
  }

  /** Stepping back over a frame finds exactly its body, whatever surrounds it. */
  lemma StepBackOverFrame(before: seq<byte>, p: Proposal, after: seq<byte>)
    requires Fits(p)
    ensures StepBack(before + Encode(p) + after, |before + Encode(p)|) ==
      if p.content == [] then Failed else Ok((p, |before|, |before|))
  {
    var file := before + Encode(p) + after;
    var start, at, end := |before|, |before| + |Body(p)|, |before + Encode(p)|;
    assert file[at..end] == Uint32ToBytes(|Body(p)|);
    assert file[start..at] == Body(p);
    Uint32RoundTrip(|Body(p)|, []);
    BodyRoundTrip(p);
  }

  /** `newer` put in front of what reading on yields. */
  ghost function Newer(newer: seq<Proposal>, r: Result<seq<Proposal>>): Result<seq<Proposal>> {
    match r case Failed => Failed case Ok(older) => Ok(newer + older)
  }

  lemma NewerAppend(newer: seq<Proposal>, p: Proposal, r: Result<seq<Proposal>>)
    ensures Newer(newer, Newer([p], r)) == Newer(newer + [p], r)
  {
    if r.Ok? {
      assert newer + ([p] + r.value) == newer + [p] + r.value;
    }
  }

  /** What reading back should yield: the last records newest first, up to one without content. */
  ghost function Newest(ps: seq<Proposal>, k: nat): Result<seq<Proposal>> {
    if k == 0 || ps == [] then Ok([])
    else if ps[|ps| - 1].content == [] then Failed
    else Newer([ps[|ps| - 1]], Newest(ps[..|ps| - 1], k - 1))
  }

  predicate HasContent(ps: seq<Proposal>) {
    ps == [] || (ps[|ps| - 1].content != [] && HasContent(ps[..|ps| - 1]))
  }

  predicate AllFit(ps: seq<Proposal>) {
    ps == [] || (Fits(ps[|ps| - 1]) && AllFit(ps[..|ps| - 1]))
  }

  lemma {:induction false} NewestIsReversed(ps: seq<Proposal>, k: nat)
    ensures Newest(ps, k) == if HasContent(LastK(ps, k)) then Ok(Reverse(LastK(ps, k))) else Failed
  {
    if k > 0 && ps != [] {
      var init, p := ps[..|ps| - 1], ps[|ps| - 1];
      NewestIsReversed(init, k - 1);
      var last, rest := LastK(ps, k), LastK(init, k - 1);
      assert last == rest + [p] && last[..|last| - 1] == rest;
      ReverseAppend(rest, p);
    }
  }

  lemma {:induction false} ReadBackEncoded(ps: seq<Proposal>, after: seq<byte>, k: nat)
    requires ps != [] && AllFit(ps)
    ensures ReadBack(EncodeAll(ps) + after, |EncodeAll(ps)|, k) == Newest(ps, k)
    decreases |ps|
  {
    if k > 0 {
      var older, p := ps[..|ps| - 1], ps[|ps| - 1];
      ReadBackStep(EncodeAll(older), p, after, k);
      if older != [] {
        ReadBackEncoded(older, Encode(p) + after, k - 1);
      }
      hide ReadBack, Encode, Fits;
      assert [p] + [] == [p];
    }
  }

  /** Reading back over one more frame. */
  lemma ReadBackStep(before: seq<byte>, p: Proposal, after: seq<byte>, k: nat)
    requires Fits(p) && k > 0
    ensures ReadBack(before + Encode(p) + after, |before + Encode(p)|, k) ==
      if p.content == [] then Failed
      else if before == [] then Ok([p])
      else Newer([p], ReadBack(before + (Encode(p) + after), |before|, k - 1))
  {
    StepBackOverFrame(before, p, after);
    assert before + Encode(p) + after == before + (Encode(p) + after);
  }

  lemma ReverseAppend<T>(s: seq<T>, x: T)
    ensures Reverse(s + [x]) == [x] + Reverse(s)
  {
    if s != [] {
      assert (s + [x])[1..] == s[1..] + [x];
      ReverseAppend(s[1..], x);
    }
  }

  lemma ReverseReverse<T>(s: seq<T>)
    ensures Reverse(Reverse(s)) == s
  {
    if s != [] {
      ReverseReverse(s[1..]);
      ReverseAppend(Reverse(s[1..]), s[0]);
    }
  }

  /** Reading the latest `k` records of a non-empty log returns the last min(k, n) of them in the
      order they were saved if every one of them has content, and an error otherwise, whatever
      bytes the contents hold. */
  lemma ReadInvertsAppend(ps: seq<Proposal>, k: int)
    requires ps != [] && AllFit(ps)
    ensures ReadLatest(EncodeAll(ps), k) == if HasContent(LastK(ps, k)) then Ok(LastK(ps, k)) else Failed
  {
    if k > 0 {
      assert EncodeAll(ps) + [] == EncodeAll(ps);
      ReadBackEncoded(ps, [], k);
      NewestIsReversed(ps, k);
      ReverseReverse(LastK(ps, k));
    }
  }

  /** A length that points before the start of the file: reading ends there, with whatever the first bytes
      of the file decode to as the oldest proposal, or with an error. */
  lemma SeekBeforeStart(file: seq<byte>, cursor: nat, k: nat)
    requires 4 <= cursor <= |file| && k > 0 && BytesToUint32(file[cursor - 4..cursor]) > cursor - 4
    ensures var length := BytesToUint32(file[cursor - 4..cursor]);
            ReadBack(file, cursor, k) ==
              if length > |file| || Decode(file[..length]).Failed? then Failed else Ok([Decode(file[..length]).value])
  {
    hide Decode, BytesToUint32;
  }

  // ---- The store of epoch files ----

  /** The records of one epoch, in the order they were saved. */
  function EpochRecords(saved: seq<Proposal>, epoch: uint16): seq<Proposal> {
    if saved == [] then []
    else
      var init, last := EpochRecords(saved[..|saved| - 1], epoch), saved[|saved| - 1];
      if last.epoch == epoch then init + [last] else init
  }

  /** The files hold exactly the saved proposals, each in the file of its epoch. */
  ghost predicate Represents(files: map<uint16, seq<byte>>, saved: seq<Proposal>) {
    && (forall e: uint16 :: e in files <==> EpochRecords(saved, e) != [])
    && (forall e: uint16 :: e in files ==> files[e] == EncodeAll(EpochRecords(saved, e)))
  }

  function ReadFile(files: map<uint16, seq<byte>>, epoch: uint16, k: int): Result<seq<Proposal>> {
    if k <= 0 then Ok([]) else if epoch !in files then Failed else ReadLatest(files[epoch], k)
  }

  function ReadHighestCount(files: map<uint16, seq<byte>>, epoch: uint16): Result<uint16> {
    match ReadFile(files, epoch, 1)
    case Failed => Failed
    case Ok(ps) => if ps == [] then Failed else Ok(ps[0].count)
  }

  predicate AllEncodable(ps: seq<Proposal>) {
    AllFit(ps) && HasContent(ps)
  }

  lemma {:induction false} EpochRecordsEncodable(saved: seq<Proposal>, epoch: uint16)
    requires AllEncodable(saved)
    ensures AllEncodable(EpochRecords(saved, epoch))
  {
    if saved != [] {
      EpochRecordsEncodable(saved[..|saved| - 1], epoch);
    }
  }

  lemma {:induction false} LastKHasContent(ps: seq<Proposal>, k: int)
    requires HasContent(ps)
    ensures HasContent(LastK(ps, k))
  {
    if 0 < k < |ps| {
      var init := ps[..|ps| - 1];
      LastKHasContent(init, k - 1);
      assert LastK(ps, k)[..k - 1] == LastK(init, k - 1);
    }
  }

  lemma {:induction false} RecordsFit(saved: seq<Proposal>, epoch: uint16)
    requires AllFit(saved)
    ensures AllFit(EpochRecords(saved, epoch))
  {
    if saved != [] {
      RecordsFit(saved[..|saved| - 1], epoch);
    }
  }

  /** What the byte files return for a saved log: the latest records of the epoch, unless one of them has
      no content. */
  lemma ReadFileRepresents(files: map<uint16, seq<byte>>, saved: seq<Proposal>, epoch: uint16, k: int)
    requires Represents(files, saved) && AllFit(saved)
    ensures ReadFile(files, epoch, k) ==
      var ps := EpochRecords(saved, epoch);
      if k > 0 && (ps == [] || !HasContent(LastK(ps, k))) then Failed else Ok(LastK(ps, k))
  {
    RecordsFit(saved, epoch);
    if EpochRecords(saved, epoch) != [] {
      ReadInvertsAppend(EpochRecords(saved, epoch), k);
    }
  }

  lemma ReadHighestRepresents(files: map<uint16, seq<byte>>, saved: seq<Proposal>, epoch: uint16)
    requires Represents(files, saved) && AllFit(saved)
    ensures ReadHighestCount(files, epoch) ==
      var ps := EpochRecords(saved, epoch);
      if ps == [] || ps[|ps| - 1].content == [] then Failed else Ok(ps[|ps| - 1].count)
  {
    hide ReadFile, Represents, EpochRecords, AllFit;
    ReadFileRepresents(files, saved, epoch, 1);
    var ps := EpochRecords(saved, epoch);
    if ps != [] { assert LastK(ps, 1)[..0] == []; }
  }

  ghost predicate IsHighest(epochs: set<uint16>, epoch: uint16) {
    (epoch == 0 || epoch in epochs) && forall e: uint16 :: e in epochs ==> e <= epoch
  }

  function CountOf(files: map<uint16, seq<byte>>, epoch: uint16): uint16 {
    if epoch == 0 then 0
    else match ReadHighestCount(files, epoch) case Ok(c) => c case Failed => 0
  }

  /** The zxid a restarted node starts from. */
  ghost function Restored(files: map<uint16, seq<byte>>): (r: (uint16, uint16))
    ensures IsHighest(files.Keys, r.0)
  {
    HighestExists(files.Keys);
    var epoch: uint16 :| IsHighest(files.Keys, epoch);
    (epoch, CountOf(files, epoch))
  }

  lemma HighestExists(epochs: set<uint16>)
    ensures exists epoch: uint16 :: IsHighest(epochs, epoch)
    decreases epochs
  {
    if epochs == {} {
      assert IsHighest(epochs, 0);
    } else {
      var k :| k in epochs;
      HighestExists(epochs - {k});
      var e: uint16 :| IsHighest(epochs - {k}, e);
      assert forall j: uint16 :: j in epochs ==> j == k || j in epochs - {k};
      assert IsHighest(epochs, if e < k then k else e);
    }
  }

  lemma HighestIsUnique(files: map<uint16, seq<byte>>, epoch: uint16)
    requires IsHighest(files.Keys, epoch)
    ensures Restored(files) == (epoch, CountOf(files, epoch))
  {
  }

  /** A restart resumes from the zxid of the newest record of the highest epoch exactly when that epoch
      is not 0 and the record has content, or the record carries count 0 anyway; otherwise from count 0. */
  lemma RestoredIsNewest(files: map<uint16, seq<byte>>, saved: seq<Proposal>)
    requires Represents(files, saved) && saved != [] && AllFit(saved)
    ensures var (epoch, count) := Restored(files);
            var newest := EpochRecords(saved, epoch);
            && newest != []
            && (count == newest[|newest| - 1].count <==>
                  (epoch != 0 && newest[|newest| - 1].content != []) || newest[|newest| - 1].count == 0)
            && (count != newest[|newest| - 1].count ==> count == 0)
  {
    var epoch := Restored(files).0;
    ReadHighestRepresents(files, saved, epoch);
    var first := saved[|saved| - 1];
    assert EpochRecords(saved, first.epoch) != [];
    assert first.epoch in files;
  }

  lemma NewerNothing(r: Result<seq<Proposal>>)
    ensures Newer([], r) == r
  {
    if r.Ok? { assert [] + r.value == r.value; }
  }

  lemma NothingLeft(file: seq<byte>, cursor: nat, props: seq<Proposal>)
    requires cursor <= |file|
    ensures Newer(props, ReadBack(file, cursor, 0)) == Ok(props)
  {
    assert props + [] == props;
  }

  /** Reading one frame and going on from the cursor it leaves. */
  lemma OneFrameRead(file: seq<byte>, cursor: nat, k: nat, props: seq<Proposal>)
    requires cursor <= |file| && k > 0
    ensures Newer(props, ReadBack(file, cursor, k)) ==
      match StepBack(file, cursor)
      case Failed => Failed
      case Ok((p, pos, next)) => if pos == 0 then Ok(props + [p]) else Newer(props + [p], ReadBack(file, next, k - 1))
  {
    hide StepBack;
    if StepBack(file, cursor).Ok? {
      var (p, pos, next) := StepBack(file, cursor).value;
      NewerAppend(props, p, ReadBack(file, next, k - 1));
    }
  }

  lemma OneMoreRecord(saved: seq<Proposal>, p: Proposal, epoch: uint16)
    ensures EpochRecords(saved + [p], epoch) == if p.epoch == epoch then EpochRecords(saved, epoch) + [p] else EpochRecords(saved, epoch)
  {
    assert (saved + [p])[..|saved|] == saved;
  }

  lemma EncodeOneMore(ps: seq<Proposal>, p: Proposal)
    ensures EncodeAll(ps + [p]) == EncodeAll(ps) + Encode(p)
  {
    assert (ps + [p])[..|ps|] == ps;
  }

  /** Appending one frame to the file of a proposal's epoch saves that proposal. */
  lemma RepresentsOneMore(files: map<uint16, seq<byte>>, saved: seq<Proposal>, p: Proposal)
    requires Represents(files, saved)
    ensures Represents(files[p.epoch := (if p.epoch in files then files[p.epoch] else []) + Encode(p)], saved + [p])
  {
    EncodeOneMore(EpochRecords(saved, p.epoch), p);
    assert EncodeAll([]) == [];
    hide EpochRecords, Encode, EncodeAll;
    forall e: uint16 ensures EpochRecords(saved + [p], e) == if p.epoch == e then EpochRecords(saved, e) + [p] else EpochRecords(saved, e) {
      OneMoreRecord(saved, p, e);
    }
  }

  class ProposalStore {
    var files: map<uint16, seq<byte>>

    constructor ()
      ensures files == map[]
      ensures Represents(files, [])
    {
      files := map[];
    }

    method ProposalToBytes(p: Proposal) returns (buf: seq<byte>)
      ensures buf == Encode(p)
    {
      buf := [];
      buf := buf + [p.kind] + Uint16ToBytes(p.epoch) + Uint16ToBytes(p.count);
      var totalLen := 1 + 2 + 2 + |p.content|;
      buf := buf + p.content;
      buf := buf + Uint32ToBytes(totalLen % 0x1_0000_0000);
    }

    /** Appends one frame to the file of the proposal's epoch, creating the file if needed. */
    method SaveProposal(p: Proposal, ghost saved: seq<Proposal>)
      requires Represents(files, saved)
      modifies this
      ensures Represents(files, saved + [p])
      ensures files == old(files)[p.epoch := (if p.epoch in old(files) then old(files)[p.epoch] else []) + Encode(p)]
    {
      var bytes := ProposalToBytes(p);
      var file := if p.epoch in files then files[p.epoch] else [];
      RepresentsOneMore(files, saved, p);
      hide Represents, EpochRecords, Encode;
      files := files[p.epoch := file + bytes];
    }

    /** Moves the cursor back over one frame: its length first, then its body. A failing seek
        reports position 0 and leaves the cursor where it was. */
    static method ReadFrame(file: seq<byte>, cursor: nat) returns (r: Result<(Proposal, nat, nat)>)
      requires cursor <= |file|
      ensures r == StepBack(file, cursor)
    {
      if cursor < 4 {
        return Failed;
      }
      var next := cursor - 4;
      var curPos := next;
      var length := BytesToUint32(file[curPos..curPos + 4]);
      if length <= next {
        next := next - length;
        curPos := next;
      } else {
        curPos := 0;
      }
      if curPos + length > |file| {
        return Failed;
      }
      var prop := Decode(file[curPos..curPos + length]);
      if prop.Failed? {
        return Failed;
      }
      r := Ok((prop.value, curPos, next));
    }

    /** Reads frames from the end of the file backwards, newest first. */
    static method ReadFrames(file: seq<byte>, readCount: nat) returns (r: Result<seq<Proposal>>)
      ensures r == ReadBack(file, |file|, readCount)
    {
      hide StepBack, ReadBack, Newer;
      var cursor, props: seq<Proposal>, i := |file|, [], 0;
      ghost var all := ReadBack(file, cursor, readCount);
      NewerNothing(all);
      while i < readCount
        invariant 0 <= i <= readCount && 0 <= cursor <= |file|
        invariant all == Newer(props, ReadBack(file, cursor, readCount - i))
      {
        OneFrameRead(file, cursor, readCount - i, props);
        var frame := ReadFrame(file, cursor);
        if frame.Failed? {
          return Failed;
        }
        var (prop, curPos, next) := frame.value;
        props := props + [prop];
        if curPos == 0 {
          return Ok(props);
        }
        cursor := next;
        i := i + 1;
      }
      NothingLeft(file, cursor, props);
      r := Ok(props);
    }

    /** The latest proposals of an epoch, back in the order they were saved. */
    method ReadProposals(epoch: uint16, readCount: int) returns (r: Result<seq<Proposal>>)
      ensures r == ReadFile(files, epoch, readCount)
    {
      if readCount <= 0 {
        return Ok([]);
      }
      if epoch !in files {
        return Failed;
      }
      var props := ReadFrames(files[epoch], readCount);
      match props {
        case Failed => return Failed;
        case Ok(ps) => return Ok(Reverse(ps));
      }
    }

    method GetEpochHighestCount(epoch: uint16) returns (r: Result<uint16>)
      ensures r == ReadHighestCount(files, epoch)
    {
      var props := ReadProposals(epoch, 1);
      match props {
        case Failed => return Failed;
        case Ok(ps) =>
          if ps == [] {
            return Failed;
          }
          return Ok(ps[0].count);
      }
    }

    /** Walks a directory listing, keeping the highest epoch seen. Epoch 0 never beats the initial
        value, so the count of a store that only has epoch 0 is not read. */
    method RestoreZxid(listing: seq<uint16>) returns (epoch: uint16, count: uint16)
      requires forall e: uint16 :: e in listing <==> e in files
      ensures (epoch, count) == Restored(files)
    {
      epoch, count := 0, 0;
      for i := 0 to |listing|
        invariant epoch == 0 || epoch in listing[..i]
        invariant forall j :: 0 <= j < i ==> listing[j] <= epoch
        invariant count == CountOf(files, epoch)
      {
        if epoch < listing[i] {
          epoch := listing[i];
          var highest := GetEpochHighestCount(epoch);
          count := if highest.Ok? then highest.value else 0;
        }
      }
      assert listing[..|listing|] == listing;
      HighestIsUnique(files, epoch);
    }
  }
}
