/** The leader's count of acknowledgements per proposal. */
module AckCounting {
  import opened Zxid

  type Tracker = map<uint32, int>

  /** The leader itself is the first acknowledgement. */
  function Stored(t: Tracker, zxid: uint32): Tracker {
    t[zxid := 1]
  }

  /** One more acknowledgement: the new tracker and whether it completed a quorum, in which case
      the entry restarts from 0 instead of being removed. */
  function Incremented(t: Tracker, zxid: uint32, maxCount: int): (Tracker, bool) {
    if zxid !in t then (t, false)
    else if t[zxid] + 1 > maxCount then (t[zxid := 0], true)
    else (t[zxid := t[zxid] + 1], false)
  }

  class AckCounter {
    var ackTracker: Tracker

    constructor ()
      ensures ackTracker == map[]
    {
      ackTracker := map[];
    }

    method StoreNew(zxid: uint32)
      modifies this
      ensures ackTracker == Stored(old(ackTracker), zxid)
    {
      ackTracker := ackTracker[zxid := 1];
    }

    method IncrementOrRemove(zxid: uint32, maxCount: int) returns (quorum: bool)
      modifies this
      ensures (ackTracker, quorum) == Incremented(old(ackTracker), zxid, maxCount)
    {
      if zxid !in ackTracker {
        return false;
      }
      var count := ackTracker[zxid];
      if count + 1 > maxCount {
        ackTracker := ackTracker[zxid := 0];
        return true;
      }
      ackTracker := ackTracker[zxid := count + 1];
      return false;
    }
  }

  /** How often a quorum is reported in a run of acknowledgements, for one zxid. */
  function Reports(t: Tracker, run: seq<uint32>, zxid: uint32, maxCount: int): nat {
    if run == [] then 0
    else
      var (next, quorum) := Incremented(t, run[0], maxCount);
      (if quorum && run[0] == zxid then 1 else 0) + Reports(next, run[1..], zxid, maxCount)
  }

  function Occurrences(run: seq<uint32>, zxid: uint32): nat {
    if run == [] then 0 else (if run[0] == zxid then 1 else 0) + Occurrences(run[1..], zxid)
  }

  /** From an entry holding `have`, further acknowledgements of the zxid, however interleaved with
      others, complete a first quorum when `have` passes the threshold, and a second one only
      after threshold + 1 more. */
  lemma {:induction false} ReportsFrom(t: Tracker, run: seq<uint32>, zxid: uint32, maxCount: int)
    requires zxid in t && maxCount >= 1
    requires 0 < t[zxid] <= maxCount && t[zxid] + Occurrences(run, zxid) <= 2 * maxCount + 1
    ensures Reports(t, run, zxid, maxCount) == if t[zxid] + Occurrences(run, zxid) > maxCount then 1 else 0
    decreases run
  {
    if run != [] {
      var next := Incremented(t, run[0], maxCount).0;
      if run[0] == zxid && next[zxid] == 0 {
        ReportsAfterReset(next, run[1..], zxid, maxCount);
      } else {
        ReportsFrom(next, run[1..], zxid, maxCount);
      }
    }
  }

  lemma {:induction false} ReportsAfterReset(t: Tracker, run: seq<uint32>, zxid: uint32, maxCount: int)
    requires zxid in t && 0 <= t[zxid] && t[zxid] + Occurrences(run, zxid) <= maxCount
    ensures Reports(t, run, zxid, maxCount) == 0
    decreases run
  {
    if run != [] {
      ReportsAfterReset(Incremented(t, run[0], maxCount).0, run[1..], zxid, maxCount);
    }
  }

  /** With n >= 2 nodes and at most one acknowledgement from each of the n - 1 followers, a stored
      proposal is reported once its floor(n/2)-th acknowledgement is in, that is once a majority
      including the leader has it, and never a second time despite the reset. */
  lemma QuorumReportedOnce(t: Tracker, run: seq<uint32>, zxid: uint32, n: nat)
    requires n >= 2 && Occurrences(run, zxid) <= n - 1
    ensures Reports(Stored(t, zxid), run, zxid, n / 2) == if Occurrences(run, zxid) >= n / 2 then 1 else 0
    ensures Occurrences(run, zxid) >= n / 2 <==> 2 * (Occurrences(run, zxid) + 1) > n
  {
    ReportsFrom(Stored(t, zxid), run, zxid, n / 2);
  }

  /** A zxid that was never stored is never reported, as is the case for NewLeader. */
  lemma {:induction false} UnknownNeverReported(t: Tracker, run: seq<uint32>, zxid: uint32, maxCount: int)
    requires zxid !in t
    ensures Reports(t, run, zxid, maxCount) == 0
    decreases run
  {
    if run != [] {
      UnknownNeverReported(Incremented(t, run[0], maxCount).0, run[1..], zxid, maxCount);
    }
  }
}
