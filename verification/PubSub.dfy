/** Topics: messages are sequential children of a topic, subscribers watch for the next one and
    fetch what they have not seen. */
module PubSub {
  import opened Wrappers
  import opened Collections
  import opened SeqNames
  import opened Znodes
  import opened ZnodeTrees
  import opened ZnodeRuns
  import opened ZnodeInvariants

  const MSG := "msg"
  const MSG_PREFIX := "msg_"

  predicate HasPrefix(s: string, prefix: string) {
    |prefix| <= |s| && s[..|prefix|] == prefix
  }

  function TrimPrefix(s: string, prefix: string): string {
    if HasPrefix(s, prefix) then s[|prefix|..] else s
  }

  /** The largest message number among child names: names that are bare numbers count as well. */
  function MaxMessage(children: seq<string>): (m: int)
    ensures m >= 0
  {
    if children == [] then 0
    else
      var m := MaxMessage(children[..|children| - 1]);
      match Atoi(TrimPrefix(children[|children| - 1], MSG_PREFIX))
      case None => m
      case Some(k) => if k > m then k else m
  }

  method FindMaxMessageNumber(messages: seq<string>) returns (maxNum: int)
    ensures maxNum == MaxMessage(messages)
  {
    maxNum := 0;
    for i := 0 to |messages|
      invariant maxNum == MaxMessage(messages[..i])
    {
      assert messages[..i + 1][..i] == messages[..i];
      var num := Atoi(TrimPrefix(messages[i], MSG_PREFIX));
      if num.None? {
        continue;
      }
      if num.value > maxNum {
        maxNum := num.value;
      }
    }
    assert messages[..|messages|] == messages;
  }

  /** The largest child name that is a number without the prefix, and 0. */
  function MaxBare(children: seq<string>): (m: int)
    ensures m >= 0
  {
    if children == [] then 0
    else
      var m, last := MaxBare(children[..|children| - 1]), children[|children| - 1];
      if HasPrefix(last, MSG_PREFIX) then m
      else match Atoi(last)
        case None => m
        case Some(k) => if k > m then k else m
  }

  /** A child with the prefix is split at the prefix if at all. */
  lemma PrefixedNumber(child: string)
    requires HasPrefix(child, MSG_PREFIX)
    ensures NumberOf(child, MSG) == Atoi(child[4..])
  {
    var rest := child[4..];
    assert child[3] == child[..4][3] == '_' && child[..3] == child[..4][..3] == MSG;
    if Atoi(rest).Some? {
      AtoiFree(rest);
      LastIndexAfter(child[..3], '_', rest);
      assert child == child[..3] + ['_'] + rest;
    } else {
      SplitAtThree(child);
    }
  }

  lemma SplitAtThree(child: string)
    ensures NumberOf(child, MSG).Some? ==> HasPrefix(child, MSG_PREFIX) && NumberOf(child, MSG) == Atoi(child[4..])
  {
    hide Atoi;
    var i := LastIndex(child, '_');
    if i >= 0 && child[..i] == MSG {
      assert i == 3;
      assert child[..4] == child[..3] + [child[3]];
    }
  }

  /** With the prefix, a child counts for subscribers exactly as it counts for the sequence. */
  lemma PrefixedCountsAlike(child: string)
    ensures NumberOf(child, MSG) == if HasPrefix(child, MSG_PREFIX) then Atoi(child[4..]) else None
  {
    hide Atoi, NumberOf;
    if HasPrefix(child, MSG_PREFIX) {
      PrefixedNumber(child);
    } else {
      SplitAtThree(child);
    }
  }

  lemma {:induction false} MaxMessageSplits(children: seq<string>)
    ensures var a, b := MaxSeq(children, MSG), MaxBare(children);
            MaxMessage(children) == if a >= b then a else b
  {
    if children != [] {
      MaxMessageSplits(children[..|children| - 1]);
      PrefixedCountsAlike(children[|children| - 1]);
      hide NumberOf, Atoi, LastIndex;
    }
  }

  lemma ItoaInjective(m: int, n: int)
    ensures Itoa(m) == Itoa(n) ==> m == n
  {
    DigitsRoundTrip(if m < 0 then -m else m);
    DigitsRoundTrip(if n < 0 then -n else n);
    if Itoa(m) == Itoa(n) {
      if m < 0 && n < 0 {
        assert Itoa(m)[1..] == Digits(-m) && Itoa(n)[1..] == Digits(-n);
      }
    }
  }

  lemma NumberedInjective(base: string, m: int, n: int)
    ensures Numbered(base, m) == Numbered(base, n) <==> m == n
  {
    hide Itoa;
    ItoaInjective(m, n);
    var a, b := Numbered(base, m), Numbered(base, n);
    assert a[|base| + 1..] == Itoa(m) && b[|base| + 1..] == Itoa(n);
  }

  /** The name a subscriber watches for. */
  function AwaitedName(children: seq<string>): string {
    Numbered(MSG, Wrap(MaxMessage(children) + 1))
  }

  /** A subscriber watches the very name the next published message gets, exactly if no child that
      is a bare number exceeds all message numbers. */
  lemma AwaitedIsNext(children: seq<string>)
    ensures AwaitedName(children) == NextName(children, MSG) <==> MaxBare(children) <= MaxSeq(children, MSG)
  {
    MaxMessageSplits(children);
    MaxSeqBounds(children, MSG);
    MaxBareBound(children);
    hide MaxSeq, MaxBare, MaxMessage, Numbered, NumberOf;
    NumberedInjective(MSG, Wrap(MaxMessage(children) + 1), Wrap(MaxSeq(children, MSG) + 1));
    WrapNextInjective(MaxMessage(children), MaxSeq(children, MSG));
  }

  lemma WrapNextInjective(m: int, n: int)
    requires 0 <= m <= MAX_INT && 0 <= n <= MAX_INT
    ensures Wrap(m + 1) == Wrap(n + 1) <==> m == n
  {
  }

  lemma {:induction false} MaxBareBound(children: seq<string>)
    ensures MaxBare(children) <= MAX_INT
  {
    if children != [] { MaxBareBound(children[..|children| - 1]); }
  }

  // ---- A topic whose children come from publishing ----

  function MessagePath(topic: Path, n: int): Path {
    topic + [Numbered(MSG, n)]
  }

  /** The topic's children are its messages 1 to n. */
  ghost predicate Published(c: Tree, topic: Path, n: nat) {
    WellFormed(c) && topic in c && c[topic].ephemeral == "" && c[topic].children == FirstNames(MSG, n)
  }

  lemma {:induction false} FirstNamesMembers(n: nat, k: int)
    ensures Numbered(MSG, k) in FirstNames(MSG, n) <==> 1 <= k <= n
  {
    if n > 0 {
      FirstNamesMembers(n - 1, k);
      NumberedInjective(MSG, k, n);
      hide Numbered;
    }
  }

  lemma {:induction false} NoBareNames(n: nat)
    ensures MaxBare(FirstNames(MSG, n)) == 0
  {
    if n > 0 {
      NoBareNames(n - 1);
      var names := FirstNames(MSG, n);
      assert names[..n - 1] == FirstNames(MSG, n - 1);
      assert HasPrefix(Numbered(MSG, n), MSG_PREFIX);
    }
  }

  /** On such a topic the messages are stored under 1 to n and nothing else is, and a subscriber
      waits for number n + 1. */
  lemma PublishedMessages(c: Tree, topic: Path, n: nat, k: int)
    requires Published(c, topic, n) && n < MAX_INT
    ensures MessagePath(topic, k) in c <==> 1 <= k <= n
    ensures AwaitedName(c[topic].children) == Numbered(MSG, n + 1) == NextName(c[topic].children, MSG)
  {
    FirstNamesMembers(n, k);
    NoBareNames(n);
    ContiguousNames([], MSG, n);
    assert [] + FirstNames(MSG, n) == FirstNames(MSG, n);
    AwaitedIsNext(c[topic].children);
    ListedIsPresent(c, topic, Numbered(MSG, k)) by { SequentialIsNotSessionDir(MSG, k); }
  }

  lemma ListedIsPresent(c: Tree, topic: Path, name: string)
    requires WellFormed(c) && topic in c && name != SESSION_DIR
    ensures topic + [name] in c <==> name in c[topic].children
  {
    ChildPath(topic, name);
    if topic + [name] in c {
      assert HasParent(c, topic + [name]);
      CountIn(c[topic].children, name);
    }
  }

  /** Exactly the messages 1 to n are there. */
  ghost predicate HasMessages(files: Tree, topic: Path, n: nat) {
    forall k :: MessagePath(topic, k) in files <==> 1 <= k <= n
  }

  lemma PublishedHas(c: Tree, topic: Path, n: nat)
    requires Published(c, topic, n) && n < MAX_INT
    ensures HasMessages(c, topic, n)
  {
    hide MessagePath, Published;
    forall k ensures MessagePath(topic, k) in c <==> 1 <= k <= n { PublishedMessages(c, topic, n, k); }
  }

  /** The messages 1 to n of both storages are the same. */
  ghost predicate Extends(files: Tree, files': Tree, topic: Path, n: nat) {
    forall k :: 1 <= k <= n ==>
      MessagePath(topic, k) in files && MessagePath(topic, k) in files'
      && files[MessagePath(topic, k)].data == files'[MessagePath(topic, k)].data
  }

  /** The request a server makes of a message for an existing topic. */
  function Publish(topic: Path, data: Data): WriteRequest {
    WriteRequest(Create, [ZNode(topic + [MSG], data, 0, "", true, [])])
  }

  /** Publishing adds message n + 1, at the path subscribers are waiting for. */
  lemma PublishNext(c: Tree, storage: Tree, topic: Path, n: nat, data: Data) returns (r: WriteRequest, c': Tree)
    requires Published(c, topic, n) && n < MAX_INT
    ensures Check(c, storage, Publish(topic, data)) == (Ok(r), c')
    ensures r.znodes != [] && r.znodes[0].path == MessagePath(topic, n + 1)
    ensures Published(c', topic, n + 1) && MessagePath(topic, n + 1) in c' && Extends(c, c', topic, n)
  {
    var req := Publish(topic, data);
    PublishedHas(c, topic, n);
    ChildPath(topic, MSG);
    PublishedNext(c, topic, n);
    assert MaxSeq(c[topic].children, MSG) == n by { PublishedMax(c, topic, n); }
    ChildPath(topic, Numbered(MSG, n + 1));
    assert FirstNames(MSG, n) + [Numbered(MSG, n + 1)] == FirstNames(MSG, n + 1);
    hide WellFormed, MaxSeq, NextName, Numbered, CheckCreate, Dir, Base, FirstNames, OnlyGrows, HasMessages, Extends;
    SequentialCreateAccepted(c, storage, req);
    r, c' := Check(c, storage, req).0.value, Check(c, storage, req).1;
    hide Check;
    CheckKeepsTree(c, Arrival(req, storage));
    GrowsExtends(c, c', topic, n);
  }

  lemma GrowsExtends(c: Tree, c': Tree, topic: Path, n: nat)
    requires OnlyGrows(c, c', topic) && HasMessages(c, topic, n)
    ensures Extends(c, c', topic, n)
  {
    assert forall k :: MessagePath(topic, k) != topic by {
      forall k ensures MessagePath(topic, k) != topic { assert |MessagePath(topic, k)| == |topic| + 1; }
    }
    hide MessagePath;
  }

  lemma PublishedMax(c: Tree, topic: Path, n: nat)
    requires Published(c, topic, n) && n < MAX_INT
    ensures MaxSeq(c[topic].children, MSG) == n
  {
    ContiguousNames([], MSG, n);
    assert [] + FirstNames(MSG, n) == FirstNames(MSG, n);
  }

  lemma PublishedNext(c: Tree, topic: Path, n: nat)
    requires Published(c, topic, n) && n < MAX_INT
    ensures SequentialPath(c, topic + [MSG]) == MessagePath(topic, n + 1)
  {
    ChildPath(topic, MSG);
    ContiguousNames([], MSG, n);
    assert [] + FirstNames(MSG, n) == FirstNames(MSG, n);
  }

  // ---- Fetching ----

  /** The data of messages `first` up to, but not including, `end`, in order. */
  function MessagesBetween(files: Tree, topic: Path, first: int, end: int): seq<Data>
    requires first <= end && (forall k :: first <= k < end ==> MessagePath(topic, k) in files)
    decreases end - first
  {
    if first == end then [] else MessagesBetween(files, topic, first, end - 1) + [files[MessagePath(topic, end - 1)].data]
  }

  /** Sends every stored message from `nextMsg` on, up to the first number that is missing. */
  method GetSubscription(files: Tree, topic: Path, nextMsg: int) returns (sent: seq<Data>, next: int)
    ensures nextMsg <= next && MessagePath(topic, next) !in files
    ensures forall k :: nextMsg <= k < next ==> MessagePath(topic, k) in files
    ensures sent == MessagesBetween(files, topic, nextMsg, next)
  {
    hide MessagePath;
    sent, next := [], nextMsg;
    ghost var seen: set<Path> := {};
    while MessagePath(topic, next) in files
      invariant nextMsg <= next && |seen| == next - nextMsg && seen <= files.Keys
      invariant forall k :: nextMsg <= k < next ==> MessagePath(topic, k) in files
      invariant forall p :: p in seen ==> exists k :: nextMsg <= k < next && p == MessagePath(topic, k)
      invariant sent == MessagesBetween(files, topic, nextMsg, next)
      decreases |files.Keys| - |seen|
    {
      var path := MessagePath(topic, next);
      forall k | nextMsg <= k < next ensures path != MessagePath(topic, k) { PathsDiffer(topic, k, next); }
      sent := sent + [files[path].data];
      seen := seen + {path};
      next := next + 1;
      SubsetSize(seen, files.Keys);
    }
  }

  lemma PathsDiffer(topic: Path, m: int, n: int)
    ensures MessagePath(topic, m) == MessagePath(topic, n) <==> m == n
  {
    NumberedInjective(MSG, m, n);
    assert MessagePath(topic, m)[|topic|] == Numbered(MSG, m) && MessagePath(topic, n)[|topic|] == Numbered(MSG, n);
  }

  /** What one fetch of a topic with n messages yields. */
  ghost predicate Fetched(files: Tree, topic: Path, n: nat, first: int, sent: seq<Data>, next: int) {
    && HasMessages(files, topic, n)
    && first <= next && MessagePath(topic, next) !in files
    && (forall k :: first <= k < next ==> MessagePath(topic, k) in files)
    && sent == MessagesBetween(files, topic, first, next)
  }

  lemma FetchStops(files: Tree, topic: Path, n: nat, first: int, sent: seq<Data>, next: int)
    requires Fetched(files, topic, n, first, sent, next) && 1 <= first <= n + 1 <= MAX_INT
    ensures next == n + 1
  {
    hide MessagePath, MessagesBetween;
    assert MessagePath(topic, n + 1) !in files;
  }

  /** Successive fetches chained by the returned number: together they deliver every message from
      the first number on exactly once, in the order of publication. */
  lemma FetchesChain(files: Tree, files': Tree, topic: Path, n: nat, n': nat, first: int,
                     sent: seq<Data>, next: int, sent': seq<Data>, next': int)
    requires n <= n' < MAX_INT && 1 <= first <= n + 1
    requires Fetched(files, topic, n, first, sent, next) && Fetched(files', topic, n', next, sent', next')
    requires Extends(files, files', topic, n)
    ensures next == n + 1 && next' == n' + 1
    ensures Fetched(files', topic, n', first, sent + sent', next')
  {
    hide MessagePath;
    FetchStops(files, topic, n, first, sent, next);
    FetchStops(files', topic, n', next, sent', next');
    SameMessages(files, files', topic, first, next);
    JoinMessages(files', topic, first, next, next');
  }

  lemma {:induction false} SameMessages(files: Tree, files': Tree, topic: Path, first: int, end: int)
    requires first <= end
    requires forall k :: first <= k < end ==>
      MessagePath(topic, k) in files && MessagePath(topic, k) in files'
      && files[MessagePath(topic, k)].data == files'[MessagePath(topic, k)].data
    ensures MessagesBetween(files, topic, first, end) == MessagesBetween(files', topic, first, end)
    decreases end - first
  {
    hide MessagePath;
    if first < end { SameMessages(files, files', topic, first, end - 1); }
  }

  lemma {:induction false} JoinMessages(files: Tree, topic: Path, first: int, mid: int, end: int)
    requires first <= mid <= end && (forall k :: first <= k < end ==> MessagePath(topic, k) in files)
    ensures MessagesBetween(files, topic, first, mid) + MessagesBetween(files, topic, mid, end) == MessagesBetween(files, topic, first, end)
    decreases end - mid
  {
    hide MessagePath;
    if mid < end { JoinMessages(files, topic, first, mid, end - 1); }
  }
}
