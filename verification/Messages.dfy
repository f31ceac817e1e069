/** The messages of the broadcast protocol. JSON is not modelled: a message is its decoded
    value, while the content of a write proposal stays an opaque byte string. */
module Messages {
  import opened Zxid

  const COMMIT: byte := 0
  const STATE_CHANGE: byte := 1
  const NEW_LEADER: byte := 2

  datatype Proposal = Proposal(kind: byte, epoch: uint16, count: uint16, content: seq<byte>) {
    function Id(): uint32 {
      Compose(epoch, count)
    }
  }

  const ZERO_PROPOSAL := Proposal(COMMIT, 0, 0, [])

  datatype RequestKind = Sync | Write

  datatype Request = Request(kind: RequestKind, num: int, content: seq<byte>)

  datatype ZabMsg =
    | Req(req: Request)
    | Prop(prop: Proposal)
    | Ack(ack: Proposal)
    | Err(denied: Request)
    | SyncErr(failed: Request)

  /** A message together with the node it arrived from. */
  datatype NetMsg = NetMsg(remote: string, msg: ZabMsg)

  /** An entry of the sending queue. */
  datatype Outgoing = Broadcast(msg: ZabMsg) | To(target: string, msg: ZabMsg)

  /** What the request checker decides about a write: the marshalled content to propose or to
      send back. */
  datatype Verdict = Accepted(content: seq<byte>) | Denied(content: seq<byte>)
}
