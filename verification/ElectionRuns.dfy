/** Passes, elections and ring entries as the nodes' handlers run them: each message goes to the first
    live target, and what its receiver sends is what the handler says. */
module ElectionRuns {
  import opened Zxid
  import opened Wrappers
  import opened Collections
  import opened Election

  /** A message under way through the handlers of live nodes: who received it, what everybody knows
      afterwards, and what the last receiver sent. */
  datatype Course = Course(receivers: seq<string>, nodes: map<string, Member>, sent: Option<seq<Dispatch>>)

  /** Follows a dispatched message for at most `hops` deliveries. It goes to the first live target; a
      receiver that was already visited ends the pass; from any other the first message it sends is
      followed. */
  ghost function Follow(nodes: map<string, Member>, zxid: string -> uint32, d: Dispatch, hops: nat): Course
    decreases hops
  {
    match FirstLive(d.targets, nodes.Keys)
    case None => Course([], nodes, Some([]))
    case Some(t) =>
      FirstLiveIsLive(d.targets, nodes.Keys);
      var (out, n) := Handled(t, nodes[t], zxid(t), d.message);
      var after := nodes[t := n];
      if hops == 0 || t in d.message.visited || out.None? || out.value == [] then Course([t], after, out)
      else
        var rest := Follow(after, zxid, out.value[0], hops - 1);
        rest.(receivers := [t] + rest.receivers)
  }

  /** The ring along which nodes pass a message on. */
  ghost predicate SharesRing(nodes: map<string, Member>, ring: seq<string>, m: Message) {
    match m.kind
    case NewRing => m.payload == ring
    case Announcement => m.payload != [] && forall x :: x in nodes ==> nodes[x].addresses == ring
    case _ => forall x :: x in nodes ==> nodes[x].addresses == ring
  }

  /** What a message leaves a node with, whoever passed it on. */
  ghost function Informed(n: Member, m: Message): Member {
    match m.kind
    case Announcement => if m.payload == [] then n else n.(coordinator := MaxOf(m.payload))
    case NewRing => n.(addresses := m.payload, entering := false)
    case _ => n
  }

  ghost function InformedAll(nodes: map<string, Member>, receivers: seq<string>, m: Message): map<string, Member> {
    map x | x in nodes :: if x in receivers then Informed(nodes[x], m) else nodes[x]
  }

  /** In the middle of a pass every kind of handler does the same: it adds the node and its zxid and
      sends the message on along the ring. */
  lemma HandledOnTheWay(nodes: map<string, Member>, ring: seq<string>, t: string, zxid: uint32, m: Message)
    requires SharesRing(nodes, ring, m) && t in nodes && t !in m.visited
    ensures var (out, n) := Handled(t, nodes[t], zxid, m);
            && out.Some? && out.value != [] && n == Informed(nodes[t], m)
            && out.value[0] == Dispatch(ReorderRing(ring, t), PassedOn(m, t, zxid))
            && out.value[0].message == Message(m.kind, t, m.visited + [t], m.zxids + [zxid], m.payload)
  {
    hide ReorderRing, MaxOf;
  }

  /** Whatever a handler sends names its sender, its list of visited nodes ends with the sender and the
      list of zxids with the sender's own. */
  lemma SendersNameThemselves(id: string, n: Member, zxid: uint32, m: Message)
    ensures Handled(id, n, zxid, m).0.Some? ==> forall d <- Handled(id, n, zxid, m).0.value :: NamesSender(d.message, id, zxid)
    ensures |m.visited| == |m.zxids| && Handled(id, n, zxid, m).0.Some? ==>
      forall d <- Handled(id, n, zxid, m).0.value :: |d.message.visited| == |d.message.zxids|
  {
    hide ReorderRing, MaxOf, Winner;
  }

  /** The exact messages on which a handler panics; whoever keeps the two lists equally long sends none
      of the first sort. */
  lemma WhenHandlerPanics(id: string, n: Member, zxid: uint32, m: Message)
    ensures Handled(id, n, zxid, m).0.None? <==>
      || (m.kind == Discovery && id in m.visited && |m.visited| >= |n.addresses| / 2 + 1 && |m.zxids| != |m.visited|)
      || (m.kind == Announcement && m.payload == [])
  {
    hide ReorderRing, MaxOf, Winner;
  }

  predicate NamesSender(m: Message, id: string, zxid: uint32) {
    && m.source == id && m.visited != [] && m.visited[|m.visited| - 1] == id
    && m.zxids != [] && m.zxids[|m.zxids| - 1] == zxid
  }

  lemma HandledInforms(n: Member, t: string, zxid: uint32, m: Message)
    ensures Handled(t, n, zxid, m).1 == Informed(n, m)
  {
    hide ReorderRing, MaxOf;
  }

  lemma StillShares(nodes: map<string, Member>, ring: seq<string>, t: string, zxid: uint32, m: Message)
    requires SharesRing(nodes, ring, m) && t in nodes
    ensures SharesRing(nodes[t := Informed(nodes[t], m)], ring, PassedOn(m, t, zxid))
  {
    hide MaxOf;
  }

  lemma InformedOneMore(nodes: map<string, Member>, t: string, receivers: seq<string>, m: Message, next: Message)
    requires t in nodes && t !in receivers && next.kind == m.kind && next.payload == m.payload
    ensures InformedAll(nodes[t := Informed(nodes[t], m)], receivers, next) == InformedAll(nodes, [t] + receivers, m)
  {
    hide MaxOf;
  }

  lemma LiveStays(nodes: map<string, Member>, t: string, n: Member)
    requires t in nodes
    ensures nodes[t := n].Keys == nodes.Keys
  {
  }

  /** What the handlers do with a message is its journey. */
  ghost predicate IsJourney(c: Course, nodes: map<string, Member>, zxid: string -> uint32, m: Message, pass: Pass) {
    && c.receivers == pass.receivers && pass.receivers != []
    && c.nodes == InformedAll(nodes, pass.receivers, m)
    && var last := pass.receivers[|pass.receivers| - 1];
      last in nodes && c.sent == Handled(last, nodes[last], zxid(last), pass.message).0
  }

  lemma JourneyEnds(nodes: map<string, Member>, ring: seq<string>, zxid: string -> uint32, d: Dispatch, t: string, hops: nat)
    requires FirstLive(d.targets, nodes.Keys) == Some(t) && t in nodes && t in d.message.visited
    ensures IsJourney(Follow(nodes, zxid, d, hops), nodes, zxid, d.message, Travel(ring, nodes.Keys, zxid, t, d.message))
  {
    hide Handled, Informed;
    HandledInforms(nodes[t], t, zxid(t), d.message);
    assert Travel(ring, nodes.Keys, zxid, t, d.message) == Pass(d.message, [t], true);
    hide Travel;
    assert InformedAll(nodes, [t], d.message) == nodes[t := Informed(nodes[t], d.message)];
  }

  /** Where a journey goes from a node that was not visited yet. */
  lemma OnTheWay(live: set<string>, ring: seq<string>, zxid: string -> uint32, t: string, m: Message) returns (next: string)
    requires t in live && t !in m.visited && Travel(ring, live, zxid, t, m).complete
    ensures next in live && FirstLive(ReorderRing(ring, t), live) == Some(next)
    ensures var pass, rest := Travel(ring, live, zxid, t, m), Travel(ring, live, zxid, next, PassedOn(m, t, zxid(t)));
            rest.complete && rest.receivers != [] && pass == rest.(receivers := [t] + rest.receivers)
  {
    hide FirstLive, ReorderRing;
    FirstLiveIsLive(ReorderRing(ring, t), live);
    next := FirstLive(ReorderRing(ring, t), live).value;
  }

  lemma Fewer(t: string, rest: seq<string>)
    requires NoRepeats([t] + rest)
    ensures NoRepeats(rest) && t !in rest && ([t] + rest)[1..] == rest
  {
    var all := [t] + rest;
    assert forall i :: 0 <= i < |rest| ==> rest[i] == all[i + 1];
    assert all[0] == t;
  }

  lemma JourneyGrows(nodes: map<string, Member>, ring: seq<string>, zxid: string -> uint32, d: Dispatch, t: string, hops: nat,
                     rest: Pass)
    requires SharesRing(nodes, ring, d.message) && FirstLive(d.targets, nodes.Keys) == Some(t) && t in nodes
    requires t !in d.message.visited && hops > 0 && t !in rest.receivers
    requires var m := d.message;
             var after, next := nodes[t := Informed(nodes[t], m)], PassedOn(m, t, zxid(t));
             IsJourney(Follow(after, zxid, Dispatch(ReorderRing(ring, t), next), hops - 1), after, zxid, next, rest)
    ensures IsJourney(Follow(nodes, zxid, d, hops), nodes, zxid, d.message, rest.(receivers := [t] + rest.receivers))
  {
    var m := d.message;
    var after, onward := nodes[t := Informed(nodes[t], m)], Dispatch(ReorderRing(ring, t), PassedOn(m, t, zxid(t)));
    HandledOnTheWay(nodes, ring, t, zxid(t), m);
    FollowStep(nodes, zxid, d, t, hops, onward);
    InformedOneMore(nodes, t, rest.receivers, m, onward.message);
    hide Follow, Handled, Informed, InformedAll, SharesRing, FirstLive, ReorderRing;
    var all := [t] + rest.receivers;
    assert all[|all| - 1] == rest.receivers[|rest.receivers| - 1];
  }

  lemma FollowStep(nodes: map<string, Member>, zxid: string -> uint32, d: Dispatch, t: string, hops: nat, onward: Dispatch)
    requires FirstLive(d.targets, nodes.Keys) == Some(t) && t in nodes && t !in d.message.visited && hops > 0
    requires var (out, n) := Handled(t, nodes[t], zxid(t), d.message);
             out.Some? && out.value != [] && n == Informed(nodes[t], d.message) && out.value[0] == onward
    ensures var rest := Follow(nodes[t := Informed(nodes[t], d.message)], zxid, onward, hops - 1);
            Follow(nodes, zxid, d, hops) == rest.(receivers := [t] + rest.receivers)
  {
    hide Handled, Informed, FirstLive;
  }

  /** Handlers move a message the way it travels: a completed journey that comes to nobody twice is
      what following the handlers yields. */
  lemma {:induction false} FollowsTravel(nodes: map<string, Member>, ring: seq<string>, zxid: string -> uint32, d: Dispatch, t: string,
                                         hops: nat)
    requires SharesRing(nodes, ring, d.message) && FirstLive(d.targets, nodes.Keys) == Some(t) && t in nodes
    requires var pass := Travel(ring, nodes.Keys, zxid, t, d.message);
             pass.complete && NoRepeats(pass.receivers) && |pass.receivers| <= hops + 1
    ensures IsJourney(Follow(nodes, zxid, d, hops), nodes, zxid, d.message, Travel(ring, nodes.Keys, zxid, t, d.message))
    decreases hops
  {
    hide *;
    var m := d.message;
    if t in m.visited {
      JourneyEnds(nodes, ring, zxid, d, t, hops);
    } else {
      var next := OnTheWay(nodes.Keys, ring, zxid, t, m);
      var after := nodes[t := Informed(nodes[t], m)];
      var onward := Dispatch(ReorderRing(ring, t), PassedOn(m, t, zxid(t)));
      var rest := Travel(ring, nodes.Keys, zxid, next, onward.message);
      LiveStays(nodes, t, Informed(nodes[t], m));
      StillShares(nodes, ring, t, zxid(t), m);
      Fewer(t, rest.receivers);
      FollowsTravel(after, ring, zxid, onward, next, hops - 1);
      JourneyGrows(nodes, ring, zxid, d, t, hops, rest);
    }
  }

  // ---- Whole passes ----

  ghost predicate Around(nodes: map<string, Member>, ring: seq<string>, s: string) {
    NoRepeats(ring) && s in nodes && |nodes| >= 2 && forall x :: x in nodes ==> x in ring
  }

  /** The live nodes in ring order from `s` on. */
  function LiveFrom(nodes: map<string, Member>, ring: seq<string>, s: string): seq<string> {
    LiveOf(Cycle(ring, s), nodes.Keys)
  }

  /** What a message that `s` started over the live nodes `visited` is when it comes back. */
  ghost predicate IsBack(m: Message, kind: Kind, payload: seq<string>, visited: seq<string>, zxid: string -> uint32) {
    m.kind == kind && m.payload == payload && m.visited == visited && m.zxids == Zxids(visited, zxid)
  }

  /** A whole pass, run by the handlers: every live node receives the message once and takes in what
      it says, and then `s` has it back with everybody's name and zxid. */
  ghost predicate Went(c: Course, nodes: map<string, Member>, zxid: string -> uint32, s: string, visited: seq<string>, kind: Kind,
                       payload: seq<string>) {
    && visited != [] && visited[0] == s && |visited| == |nodes| && NoRepeats(visited)
    && (forall x :: x in visited <==> x in nodes) && s in nodes
    && c.receivers == visited[1..] + [s]
    && c.nodes == (map x | x in nodes :: Informed(nodes[x], Started(kind, s, zxid(s), payload)))
    && exists m :: IsBack(m, kind, payload, visited, zxid) && c.sent == Handled(s, nodes[s], zxid(s), m).0
  }

  lemma HandlersPass(nodes: map<string, Member>, ring: seq<string>, zxid: string -> uint32, s: string, kind: Kind, payload: seq<string>,
                     first: seq<string>)
    requires Around(nodes, ring, s) && SharesRing(nodes, ring, Started(kind, s, zxid(s), payload))
    requires FirstLive(first, nodes.Keys) == FirstLive(ReorderRing(ring, s), nodes.Keys)
    ensures Went(Follow(nodes, zxid, Dispatch(first, Started(kind, s, zxid(s), payload)), |nodes|), nodes, zxid, s,
                 LiveFrom(nodes, ring, s), kind, payload)
  {
    hide *;
    var m, visited := Started(kind, s, zxid(s), payload), LiveFrom(nodes, ring, s);
    var t := WholeJourney(nodes, ring, zxid, s, kind, payload);
    var pass := Travel(ring, nodes.Keys, zxid, t, m);
    LastIsFirst(visited, s);
    FollowsTravel(nodes, ring, zxid, Dispatch(first, m), t, |nodes|);
    EveryoneInformed(nodes, visited, s, m);
    JourneyIsPass(Follow(nodes, zxid, Dispatch(first, m), |nodes|), nodes, zxid, s, visited, kind, payload, pass);
  }

  /** The journey of a message around the live nodes. */
  lemma WholeJourney(nodes: map<string, Member>, ring: seq<string>, zxid: string -> uint32, s: string, kind: Kind, payload: seq<string>)
    returns (t: string)
    requires Around(nodes, ring, s)
    ensures t in nodes && FirstLive(ReorderRing(ring, s), nodes.Keys) == Some(t)
    ensures var pass, visited := Travel(ring, nodes.Keys, zxid, t, Started(kind, s, zxid(s), payload)), LiveFrom(nodes, ring, s);
            && visited != [] && visited[0] == s && |visited| == |nodes| && NoRepeats(visited) && (forall x :: x in visited <==> x in nodes)
            && pass.complete && pass.receivers == visited[1..] + [s] && IsBack(pass.message, kind, payload, visited, zxid)
  {
    var live := nodes.Keys;
    assert |live| == |nodes|;
    hide NoRepeats, LiveOf, Cycle, ReorderRing, FirstLive, Travel, Zxids;
    PassVisitsLive(ring, live, zxid, s, kind, payload);
    FirstLiveIsLive(ReorderRing(ring, s), live);
    t := FirstLive(ReorderRing(ring, s), live).value;
  }

  lemma JourneyIsPass(c: Course, nodes: map<string, Member>, zxid: string -> uint32, s: string, visited: seq<string>, kind: Kind,
                      payload: seq<string>, pass: Pass)
    requires visited != [] && visited[0] == s && |visited| == |nodes| && NoRepeats(visited) && (forall x :: x in visited <==> x in nodes)
    requires pass.receivers == visited[1..] + [s] && (visited[1..] + [s])[|visited| - 1] == s
    requires IsBack(pass.message, kind, payload, visited, zxid)
    requires IsJourney(c, nodes, zxid, Started(kind, s, zxid(s), payload), pass)
    requires InformedAll(nodes, visited[1..] + [s], Started(kind, s, zxid(s), payload))
      == map x | x in nodes :: Informed(nodes[x], Started(kind, s, zxid(s), payload))
    ensures Went(c, nodes, zxid, s, visited, kind, payload)
  {
    hide NoRepeats, Handled, Informed, InformedAll, IsBack;
    assert |pass.receivers| == |visited|;
    assert IsBack(pass.message, kind, payload, visited, zxid) && c.sent == Handled(s, nodes[s], zxid(s), pass.message).0;
  }

  lemma LastIsFirst(visited: seq<string>, s: string)
    requires NoRepeats(visited) && visited != [] && visited[0] == s
    ensures NoRepeats(visited[1..] + [s]) && |visited[1..] + [s]| == |visited|
    ensures (visited[1..] + [s])[|visited| - 1] == s
    ensures forall x :: x in visited[1..] + [s] <==> x in visited
  {
    assert visited == [s] + visited[1..];
  }

  lemma EveryoneInformed(nodes: map<string, Member>, visited: seq<string>, s: string, m: Message)
    requires visited != [] && visited[0] == s && forall x :: x in visited <==> x in nodes
    ensures InformedAll(nodes, visited[1..] + [s], m) == map x | x in nodes :: Informed(nodes[x], m)
  {
    hide Informed;
    assert visited == [s] + visited[1..];
    assert forall x :: x in nodes ==> x in visited[1..] + [s];
  }

  // ---- What the initiator makes of it ----

  lemma BackFromDiscovery(n: Member, s: string, zxid: string -> uint32, m: Message, visited: seq<string>)
    requires IsBack(m, Discovery, [], visited, zxid) && visited != [] && visited[0] == s
    ensures Handled(s, n, zxid(s), m).0 ==
      if |visited| >= |n.addresses| / 2 + 1 then
        Some([Dispatch(ReorderRing(visited, s), Started(Announcement, s, zxid(s), [Winner(Zxids(visited, zxid), visited)]))])
      else Some([])
  {
    hide ReorderRing, Winner, Zxids;
  }

  lemma BackFromAnnouncement(n: Member, s: string, zxid: string -> uint32, m: Message, visited: seq<string>, x: string)
    requires IsBack(m, Announcement, [x], visited, zxid) && visited != [] && visited[0] == s
    ensures Handled(s, n, zxid(s), m).0 == Some([Dispatch(ReorderRing(n.addresses, s), Started(NewRing, s, zxid(s), visited))])
  {
    hide ReorderRing, MaxOf;
  }

  lemma BackFromNewRing(n: Member, s: string, zxid: string -> uint32, m: Message, visited: seq<string>)
    requires IsBack(m, NewRing, visited, visited, zxid) && visited != [] && visited[0] == s
    ensures Handled(s, n, zxid(s), m).0 ==
      Some(if n.entering then [Dispatch(ReorderRing(visited, s), Started(Discovery, s, zxid(s), []))] else [])
  {
    hide ReorderRing;
    var d := Dispatch(ReorderRing(visited, s), Started(Discovery, s, zxid(s), []));
    assert [] + [d] == [d];
  }

  lemma BackFromRingDiscover(n: Member, s: string, zxid: string -> uint32, m: Message, visited: seq<string>)
    requires IsBack(m, RingDiscover, [], visited, zxid) && visited != [] && visited[0] == s
    ensures Handled(s, n, zxid(s), m).0 == Some([Dispatch(ReorderRing(visited, s), Started(NewRing, s, zxid(s), visited))])
  {
    hide ReorderRing;
  }

  // ---- Elections and ring entries ----

  /** All nodes pass messages along one ring. */
  ghost predicate OneRing(nodes: map<string, Member>, ring: seq<string>) {
    forall x :: x in nodes ==> nodes[x].addresses == ring
  }

  function Discovering(ring: seq<string>, zxid: string -> uint32, s: string): Dispatch {
    Dispatch(ReorderRing(ring, s), Started(Discovery, s, zxid(s), []))
  }

  function Announcing(visited: seq<string>, zxid: string -> uint32, s: string, x: string): Dispatch {
    Dispatch(ReorderRing(visited, s), Started(Announcement, s, zxid(s), [x]))
  }

  /** A discovery run by the handlers: the node with the largest (zxid, name) is announced exactly if
      a majority of the ring is alive; nobody's knowledge changes. */
  lemma HandlersDiscover(nodes: map<string, Member>, ring: seq<string>, zxid: string -> uint32, s: string)
    requires Around(nodes, ring, s) && OneRing(nodes, ring)
    ensures var c := Follow(nodes, zxid, Discovering(ring, zxid, s), |nodes|);
            && c.nodes == nodes
            && if |nodes| >= |ring| / 2 + 1 then
                 exists x :: IsElected(nodes.Keys, zxid, x) && c.sent == Some([Announcing(LiveFrom(nodes, ring, s), zxid, s, x)])
               else c.sent == Some([])
  {
    hide Follow, LiveFrom, Winner, Handled, NoRepeats, ReorderRing, FirstLive, IsElected, Zxids, IsBack;
    var visited := LiveFrom(nodes, ring, s);
    HandlersPass(nodes, ring, zxid, s, Discovery, [], ReorderRing(ring, s));
    var c := Follow(nodes, zxid, Discovering(ring, zxid, s), |nodes|);
    var m :| IsBack(m, Discovery, [], visited, zxid) && c.sent == Handled(s, nodes[s], zxid(s), m).0;
    BackFromDiscovery(nodes[s], s, zxid, m, visited);
    assert c.nodes == nodes;
    WinnerIsElected(nodes.Keys, zxid, visited);
  }

  /** An announcement of `x` run by the handlers: everybody takes `x` as coordinator, and then `s`
      sends round the new ring. */
  lemma HandlersAnnounce(nodes: map<string, Member>, ring: seq<string>, zxid: string -> uint32, s: string, x: string)
    requires Around(nodes, ring, s) && OneRing(nodes, ring)
    ensures var visited := LiveFrom(nodes, ring, s);
            var c := Follow(nodes, zxid, Announcing(visited, zxid, s, x), |nodes|);
            && c.nodes == (map y | y in nodes :: nodes[y].(coordinator := x))
            && c.sent == Some([Dispatch(ReorderRing(ring, s), Started(NewRing, s, zxid(s), visited))])
  {
    hide Follow, LiveFrom, Handled, NoRepeats, ReorderRing, FirstLive, Zxids, IsBack, Around;
    var visited := LiveFrom(nodes, ring, s);
    SameStart(nodes, ring, s);
    HandlersPass(nodes, ring, zxid, s, Announcement, [x], ReorderRing(visited, s));
    var c := Follow(nodes, zxid, Announcing(visited, zxid, s, x), |nodes|);
    var m :| IsBack(m, Announcement, [x], visited, zxid) && c.sent == Handled(s, nodes[s], zxid(s), m).0;
    BackFromAnnouncement(nodes[s], s, zxid, m, visited, x);
    assert MaxOf([x]) == x;
  }

  /** The live nodes, as a ring, begin like the ring itself. */
  lemma SameStart(nodes: map<string, Member>, ring: seq<string>, s: string)
    requires Around(nodes, ring, s)
    ensures var visited := LiveFrom(nodes, ring, s);
            && FirstLive(ReorderRing(visited, s), nodes.Keys) == FirstLive(ReorderRing(ring, s), nodes.Keys)
            && Around(nodes, visited, s) && LiveFrom(nodes, visited, s) == visited
  {
    hide LiveOf, Cycle, ReorderRing, FirstLive, NoRepeats;
    assert |nodes.Keys| == |nodes|;
    LiveRing(ring, nodes.Keys, s);
  }

  /** A new ring sent round by the handlers: everybody takes the live nodes as the ring, and a node that
      was entering starts an election on it. */
  lemma HandlersRenew(nodes: map<string, Member>, ring: seq<string>, zxid: string -> uint32, s: string, first: seq<string>)
    requires Around(nodes, ring, s) && (first == ReorderRing(ring, s) || first == ReorderRing(LiveFrom(nodes, ring, s), s))
    ensures var visited := LiveFrom(nodes, ring, s);
            var c := Follow(nodes, zxid, Dispatch(first, Started(NewRing, s, zxid(s), visited)), |nodes|);
            && c.nodes == (map y | y in nodes :: nodes[y].(addresses := visited, entering := false))
            && s in nodes && c.sent == Some(if nodes[s].entering then [Discovering(visited, zxid, s)] else [])
  {
    hide Follow, LiveFrom, Handled, NoRepeats, ReorderRing, FirstLive, Zxids, IsBack, Around;
    var visited := LiveFrom(nodes, ring, s);
    SameStart(nodes, ring, s);
    HandlersPass(nodes, visited, zxid, s, NewRing, visited, first);
    var c := Follow(nodes, zxid, Dispatch(first, Started(NewRing, s, zxid(s), visited)), |nodes|);
    var m :| IsBack(m, NewRing, visited, visited, zxid) && c.sent == Handled(s, nodes[s], zxid(s), m).0;
    BackFromNewRing(nodes[s], s, zxid, m, visited);
  }

  /** A ring discovery run by the handlers: nobody's knowledge changes, and `s` sends round the live
      nodes as the new ring. */
  lemma HandlersDiscoverRing(nodes: map<string, Member>, ring: seq<string>, zxid: string -> uint32, s: string)
    requires Around(nodes, ring, s) && OneRing(nodes, ring)
    ensures var visited := LiveFrom(nodes, ring, s);
            var c := Follow(nodes, zxid, Dispatch(ReorderRing(ring, s), Started(RingDiscover, s, zxid(s), [])), |nodes|);
            && c.nodes == nodes
            && c.sent == Some([Dispatch(ReorderRing(visited, s), Started(NewRing, s, zxid(s), visited))])
  {
    hide Follow, LiveFrom, Handled, NoRepeats, ReorderRing, FirstLive, Zxids, IsBack, Around;
    var visited := LiveFrom(nodes, ring, s);
    HandlersPass(nodes, ring, zxid, s, RingDiscover, [], ReorderRing(ring, s));
    var c := Follow(nodes, zxid, Dispatch(ReorderRing(ring, s), Started(RingDiscover, s, zxid(s), [])), |nodes|);
    var m :| IsBack(m, RingDiscover, [], visited, zxid) && c.sent == Handled(s, nodes[s], zxid(s), m).0;
    BackFromRingDiscover(nodes[s], s, zxid, m, visited);
    assert c.nodes == nodes;
  }

  /** A message sent round with the new ring. */
  function Renewing(first: seq<string>, visited: seq<string>, zxid: string -> uint32, s: string): Dispatch {
    Dispatch(ReorderRing(first, s), Started(NewRing, s, zxid(s), visited))
  }

  /** An election that `s` starts, as the handlers run it from its discovery to the new ring: `x` is
      announced, and in the end every live node has `x` as coordinator and the live nodes as its ring. */
  ghost predicate Elects(nodes: map<string, Member>, ring: seq<string>, zxid: string -> uint32, s: string, x: string) {
    var visited := LiveFrom(nodes, ring, s);
    var found := Follow(nodes, zxid, Discovering(ring, zxid, s), |nodes|);
    && found.sent == Some([Announcing(visited, zxid, s, x)])
    && var told := Follow(found.nodes, zxid, Announcing(visited, zxid, s, x), |nodes|);
      && told.sent == Some([Renewing(ring, visited, zxid, s)])
      && var done := Follow(told.nodes, zxid, Renewing(ring, visited, zxid, s), |nodes|);
        && done.nodes == (map y | y in nodes :: Member(visited, x, false))
        && s in nodes && done.sent == Some(if nodes[s].entering then [Discovering(visited, zxid, s)] else [])
  }

  lemma HandlersElect(nodes: map<string, Member>, ring: seq<string>, zxid: string -> uint32, s: string) returns (x: string)
    requires Around(nodes, ring, s) && OneRing(nodes, ring) && |nodes| >= |ring| / 2 + 1
    ensures IsElected(nodes.Keys, zxid, x) && Elects(nodes, ring, zxid, s, x)
  {
    hide Follow, LiveFrom, Discovering, Announcing, IsElected, NoRepeats, Around, OneRing, ReorderRing, Elects;
    HandlersDiscover(nodes, ring, zxid, s);
    var visited := LiveFrom(nodes, ring, s);
    x :| IsElected(nodes.Keys, zxid, x)
      && Follow(nodes, zxid, Discovering(ring, zxid, s), |nodes|).sent == Some([Announcing(visited, zxid, s, x)]);
    HandlersAnnounce(nodes, ring, zxid, s, x);
    var told := map y | y in nodes :: nodes[y].(coordinator := x);
    SameLive(nodes, told, ring, s);
    HandlersRenew(told, ring, zxid, s, ReorderRing(ring, s));
    ElectsByParts(nodes, ring, zxid, s, x, told);
  }

  lemma ElectsByParts(nodes: map<string, Member>, ring: seq<string>, zxid: string -> uint32, s: string, x: string,
                      told: map<string, Member>)
    requires told == (map y | y in nodes :: nodes[y].(coordinator := x)) && |told| == |nodes| && s in told
    requires var visited := LiveFrom(nodes, ring, s);
             var found := Follow(nodes, zxid, Discovering(ring, zxid, s), |nodes|);
             var announced := Follow(nodes, zxid, Announcing(visited, zxid, s, x), |nodes|);
             var done := Follow(told, zxid, Renewing(ring, visited, zxid, s), |told|);
             && found.nodes == nodes && found.sent == Some([Announcing(visited, zxid, s, x)])
             && announced.nodes == told && announced.sent == Some([Renewing(ring, visited, zxid, s)])
             && done.nodes == (map y | y in told :: told[y].(addresses := visited, entering := false))
             && done.sent == Some(if told[s].entering then [Discovering(visited, zxid, s)] else [])
    ensures Elects(nodes, ring, zxid, s, x)
  {
    hide Follow, LiveFrom, Discovering, Announcing, Renewing;
    var visited := LiveFrom(nodes, ring, s);
    assert (map y | y in told :: told[y].(addresses := visited, entering := false)) == (map y | y in nodes :: Member(visited, x, false));
  }

  lemma SameLive(nodes: map<string, Member>, nodes': map<string, Member>, ring: seq<string>, s: string)
    requires nodes.Keys == nodes'.Keys
    ensures LiveFrom(nodes, ring, s) == LiveFrom(nodes', ring, s) && |nodes| == |nodes'|
    ensures Around(nodes, ring, s) ==> Around(nodes', ring, s)
  {
    hide NoRepeats, LiveOf, Cycle;
    assert |nodes| == |nodes.Keys| && |nodes'| == |nodes'.Keys|;
  }

  /** A starting node's ring entry, as the handlers run it: every live node takes the live nodes as its
      ring, and then the starting node begins an election on it. */
  lemma HandlersEnter(nodes: map<string, Member>, ring: seq<string>, zxid: string -> uint32, s: string)
    requires Around(nodes, ring, s) && OneRing(nodes, ring) && nodes[s].entering
    ensures var visited := LiveFrom(nodes, ring, s);
            var found := Follow(nodes, zxid, Dispatch(ReorderRing(ring, s), Started(RingDiscover, s, zxid(s), [])), |nodes|);
            && found.sent == Some([Renewing(visited, visited, zxid, s)])
            && var done := Follow(found.nodes, zxid, Renewing(visited, visited, zxid, s), |nodes|);
              && done.nodes == (map y | y in nodes :: Member(visited, nodes[y].coordinator, false))
              && done.sent == Some([Discovering(visited, zxid, s)])
              && OneRing(done.nodes, visited) && Around(done.nodes, visited, s)
  {
    hide Follow, LiveFrom, Discovering, NoRepeats, ReorderRing, LiveOf, Cycle, Started, Around;
    var visited := LiveFrom(nodes, ring, s);
    HandlersDiscoverRing(nodes, ring, zxid, s);
    HandlersRenew(nodes, ring, zxid, s, ReorderRing(visited, s));
    var done := map y | y in nodes :: Member(visited, nodes[y].coordinator, false);
    SameStart(nodes, ring, s);
    SameLive(nodes, done, visited, s);
  }
}
