/** The znode tree: what a request does to the leader's cache when it is checked, and to a
    replica's storage when it is written. Paths are canonical sequences of components. */
module Znodes {
  import SeqNames

  type Path = seq<string>

  const SESSION_DIR := "sessionDir"

  datatype Session = Session(id: string, watchlist: seq<Path>, versionlist: seq<int>, ephemerals: seq<Path>, timeout: int)

  /** Data that unmarshals into a session, or not. */
  datatype Data = Bytes(bytes: string) | SessionData(session: Session)

  datatype ZNode = ZNode(path: Path, data: Data, version: int, ephemeral: string, sequential: bool, children: seq<string>)

  type Tree = map<Path, ZNode>

  datatype Kind = Create | SetData | Delete | DeleteSession | Sync | WatchTrigger | Unknown

  datatype WriteRequest = WriteRequest(kind: Kind, znodes: seq<ZNode>)

  datatype Error = ExistsError | InvalidRequestError | VersionError | CriticalError | InitError

  /** Panic is a nil dereference or an index out of range. */
  datatype Result<+T> = Ok(value: T) | Err(error: Error) | Panic

  /** The root is its own parent. */
  function Dir(p: Path): Path {
    if p == [] then [] else p[..|p| - 1]
  }

  function Base(p: Path): string {
    if p == [] then "." else p[|p| - 1]
  }

  /** Drops the first occurrence of a name. */
  function Without(children: seq<string>, name: string): seq<string> {
    if children == [] then []
    else if children[0] == name then children[1..]
    else [children[0]] + Without(children[1..], name)
  }

  predicate Below(p: Path, q: Path) {
    |p| < |q| && q[..|p|] == p
  }

  // ---- The leader's checks ----

  /** A session znode that owns one more ephemeral znode. */
  function Registered(n: ZNode, path: Path): ZNode
    requires n.data.SessionData?
  {
    n.(version := n.version + 1, data := SessionData(n.data.session.(ephemerals := n.data.session.ephemerals + [path])))
  }

  function WithChild(n: ZNode, name: string): ZNode {
    n.(children := n.children + [name])
  }

  /** The znode joins the cache at version 1, and its parent's children. */
  function Added(c: Tree, z: ZNode): Tree
    requires Dir(z.path) in c
  {
    var c1 := c[z.path := z.(version := z.version + 1)];
    c1[Dir(z.path) := WithChild(c1[Dir(z.path)], Base(z.path))]
  }

  function SessionPath(id: string): Path {
    [SESSION_DIR, id]
  }

  function CheckCreate(c: Tree, z: ZNode): (Result<ZNode>, Tree) {
    var made := Ok(z.(version := z.version + 1));
    if z.path in c || Dir(z.path) !in c then (Err(ExistsError), c)
    else if c[Dir(z.path)].ephemeral != "" then (Err(InvalidRequestError), c)
    else if z.version != 0 then (Err(VersionError), c)
    else if z.ephemeral == "" then (made, Added(c, z))
    else
      var s := SessionPath(z.ephemeral);
      if s !in c then (Err(ExistsError), c)
      else if !c[s].data.SessionData? then (Err(CriticalError), c)
      else (made, Added(c[s := Registered(c[s], z.path)], z))
  }

  /** Version -1 updates unconditionally and is passed on as it is. */
  function CheckUpdate(c: Tree, z: ZNode): (Result<ZNode>, Tree) {
    if z.path !in c then (Err(ExistsError), c)
    else if z.version == -1 then (Ok(z), c[z.path := c[z.path].(data := z.data)])
    else if z.version != c[z.path].version then (Err(VersionError), c)
    else (Ok(z.(version := z.version + 1)), c[z.path := c[z.path].(data := z.data, version := c[z.path].version + 1)])
  }

  /** Several updates; the first one refused ends them, but those before it are done. */
  function CheckUpdates(c: Tree, zs: seq<ZNode>): (Result<seq<ZNode>>, Tree)
    decreases |zs|
  {
    if zs == [] then (Ok([]), c)
    else
      var (r, c1) := CheckUpdate(c, zs[0]);
      match r
      case Err(e) => (Err(e), c1)
      case Panic => (Panic, c1)
      case Ok(z) =>
        var (rest, c2) := CheckUpdates(c1, zs[1..]);
        match rest
        case Ok(updated) => (Ok([z] + updated), c2)
        case Err(e) => (Err(e), c2)
        case Panic => (Panic, c2)
  }

  /** Unlists and forgets one path; descendants stay. */
  function Unlisted(c: Tree, p: Path): Tree
    requires Dir(p) in c
  {
    c[Dir(p) := c[Dir(p)].(children := Without(c[Dir(p)].children, Base(p)))] - {p}
  }

  function CheckDelete(c: Tree, z: ZNode): (Result<()>, Tree) {
    if z.path !in c then (Err(ExistsError), c)
    else if z.version != -1 && z.version != c[z.path].version then (Err(VersionError), c)
    else if Dir(z.path) !in c then (Panic, c)
    else (Ok(()), Unlisted(c, z.path))
  }

  function UnlistAll(c: Tree, paths: seq<Path>): (Result<()>, Tree)
    decreases |paths|
  {
    if paths == [] then (Ok(()), c)
    else if Dir(paths[0]) !in c then (Panic, c)
    else UnlistAll(Unlisted(c, paths[0]), paths[1..])
  }

  /** Ending a session reads the session's ephemerals from storage. */
  function CheckDeleteSession(c: Tree, storage: Tree, z: ZNode): (Result<()>, Tree) {
    if z.path !in storage then (Err(ExistsError), c)
    else if !storage[z.path].data.SessionData? then (Err(CriticalError), c)
    else
      var (r, c1) := UnlistAll(c, storage[z.path].data.session.ephemerals);
      if r.Panic? then (r, c1) else (r, c1 - {z.path})
  }

  /** The path a sequential create gets. */
  function SequentialPath(c: Tree, p: Path): Path
    requires Dir(p) in c
  {
    Dir(p) + [SeqNames.NextName(c[Dir(p)].children, Base(p))]
  }

  /** Whether a request may be proposed, the request to propose instead, and the cache afterwards. */
  function Check(c: Tree, storage: Tree, req: WriteRequest): (Result<WriteRequest>, Tree) {
    match req.kind
    case Create =>
      if req.znodes == [] || (req.znodes[0].sequential && Dir(req.znodes[0].path) !in c) then (Panic, c)
      else
        var z := req.znodes[0];
        var named := if z.sequential then z.(path := SequentialPath(c, z.path)) else z;
        var (r, c1) := CheckCreate(c, named);
        (match r
         case Ok(made) => Ok(WriteRequest(Create, req.znodes[0 := made]))
         case Err(e) => Err(e)
         case Panic => Panic, c1)
    case SetData =>
      if req.znodes == [] then (Panic, c)
      else
        var (r, c1) := CheckUpdate(c, req.znodes[0]);
        (match r
         case Ok(z) => Ok(WriteRequest(SetData, [z]))
         case Err(e) => Err(e)
         case Panic => Panic, c1)
    case Delete =>
      if req.znodes == [] then (Panic, c)
      else
        var (r, c1) := CheckDelete(c, req.znodes[0]);
        (Passed(r, req), c1)
    case DeleteSession =>
      if req.znodes == [] then (Panic, c)
      else
        var (r, c1) := CheckDeleteSession(c, storage, req.znodes[0]);
        (Passed(r, req), c1)
    case Sync => (Ok(req), c)
    case WatchTrigger =>
      var (r, c1) := CheckUpdates(c, req.znodes);
      (match r
       case Ok(zs) => Ok(WriteRequest(WatchTrigger, zs))
       case Err(e) => Err(e)
       case Panic => Panic, c1)
    case Unknown => (Err(InvalidRequestError), c)
  }

  function Passed(r: Result<()>, req: WriteRequest): Result<WriteRequest> {
    match r
    case Ok(_) => Ok(req)
    case Err(e) => Err(e)
    case Panic => Panic
  }

  // ---- A replica's writes ----

  function WriteOp(s: Tree, z: ZNode): Tree {
    s[z.path := z]
  }

  const BASE_TEXT :=
    "This is the base znode, it should not be deleted. This is used to store info of children of the root znode."
  const SESSION_TEXT := "This is the session znode, it should not be deleted. This is used to store session info."

  const BASE_ZNODE := ZNode([], Bytes(BASE_TEXT), 0, "", false, [])
  const SESSION_ZNODE := ZNode([SESSION_DIR], Bytes(SESSION_TEXT), 0, "", false, [])

  function InitBase(s: Tree): Tree {
    WriteOp(WriteOp(s, BASE_ZNODE), SESSION_ZNODE)
  }

  /** Removing a directory removes everything below it. */
  function Removed(s: Tree, p: Path): Tree {
    map q | q in s && q != p && !Below(p, q) :: s[q]
  }

  function DeleteOp(s: Tree, p: Path): (Result<()>, Tree) {
    if Dir(p) !in s then (Err(ExistsError), s)
    else
      var parent := s[Dir(p)];
      (Ok(()), Removed(WriteOp(s, parent.(children := Without(parent.children, Base(p)))), p))
  }

  /** The parent is written first, then the session, then the znode: a failure leaves the earlier
      writes behind. */
  function WriteCreate(s: Tree, z: ZNode): (Result<seq<Path>>, Tree) {
    var parentPath := Dir(z.path);
    var s0 := if (parentPath == [] || parentPath == [SESSION_DIR]) && [] !in s then InitBase(s) else s;
    if parentPath !in s0 then (Err(ExistsError), s0)
    else
      var s1 := WriteOp(s0, WithChild(s0[parentPath], Base(z.path)));
      if z.ephemeral == "" then (Ok([z.path]), WriteOp(s1, z))
      else
        var p := SessionPath(z.ephemeral);
        if p !in s1 then (Err(ExistsError), s1)
        else if !s1[p].data.SessionData? then (Err(CriticalError), s1)
        else (Ok([z.path]), WriteOp(WriteOp(s1, Registered(s1[p], z.path)), z))
  }

  function WriteAll(s: Tree, zs: seq<ZNode>): Tree
    decreases |zs|
  {
    if zs == [] then s else WriteAll(WriteOp(s, zs[0]), zs[1..])
  }

  function DeleteAll(s: Tree, paths: seq<Path>): (Result<()>, Tree)
    decreases |paths|
  {
    if paths == [] then (Ok(()), s)
    else if paths[0] !in s then (Err(ExistsError), s)
    else
      var (r, s1) := DeleteOp(s, s[paths[0]].path);
      if r.Ok? then DeleteAll(s1, paths[1..]) else (r, s1)
  }

  function WriteDeleteSession(s: Tree, z: ZNode): (Result<seq<Path>>, Tree) {
    if z.path !in s then (Err(ExistsError), s)
    else if !s[z.path].data.SessionData? then (Err(CriticalError), s)
    else
      var paths := s[z.path].data.session.ephemerals;
      var (r, s1) := DeleteAll(s, paths);
      match r
      case Err(e) => (Err(e), s1)
      case Panic => (Panic, s1)
      case Ok(_) =>
        var (d, s2) := DeleteOp(s1, z.path);
        (match d
         case Ok(_) => Ok(paths)
         case Err(e) => Err(e)
         case Panic => Panic, s2)
  }

  /** Applies a committed request; returns the modified paths. */
  function Write(s: Tree, req: WriteRequest): (Result<seq<Path>>, Tree) {
    match req.kind
    case Create => if req.znodes == [] then (Panic, s) else WriteCreate(s, req.znodes[0])
    case SetData =>
      if req.znodes == [] then (Panic, s) else (Ok([req.znodes[0].path]), WriteOp(s, req.znodes[0]))
    case Delete =>
      if req.znodes == [] then (Panic, s)
      else
        var (r, s1) := DeleteOp(s, req.znodes[0].path);
        (match r
         case Ok(_) => Ok([req.znodes[0].path])
         case Err(e) => Err(e)
         case Panic => Panic, s1)
    case DeleteSession => if req.znodes == [] then (Panic, s) else WriteDeleteSession(s, req.znodes[0])
    case WatchTrigger => (Ok([]), WriteAll(s, req.znodes))
    case Sync => (Err(InvalidRequestError), s)
    case Unknown => (Err(InvalidRequestError), s)
  }
}
