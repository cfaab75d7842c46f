/** The commands and events of the DHT key-value protocol, for one map. */
module DhtMessages {
  import opened Identity

  type Bytes = seq<Byte>

  /** A node together with the session it was started under. */
  datatype NodeSession = NodeSession(node: NodeId, session: nat)

  /** Every source keeps its own value of a key. */
  datatype SlotId = SlotId(key: nat, source: NodeSession)

  datatype ClientCommand =
    | Set(key: nat, version: nat, data: Bytes)
    | Del(key: nat, version: nat)
    | Sub(id: nat, locked: Option<NodeSession>)
    | Unsub(id: nat)
    | OnSetAck(slot: SlotId, version: nat)
    | OnDelAck(slot: SlotId, version: nat)

  datatype ServerEvent =
    | SetOk(key: nat, version: nat)
    | DelOk(key: nat, version: nat)
    | SubOk(id: nat)
    | UnsubOk(id: nat)
    | OnSet(slot: SlotId, version: nat, data: Bytes)
    | OnDel(slot: SlotId, version: nat)
}
