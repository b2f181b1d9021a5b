/** The contract's message surface: one instantiate message, two commands, two queries. */
module Msg {
  import opened Wrappers
  import opened State

  /** Only the registry address: the owner is the sender, not part of the message. */
  datatype InstantiateMsg = InstantiateMsg(densAddr: Addr)

  /**
   * `UpdateNotifications` carries a complete replacement sequence for one token;
   * `UpdateConfig` carries two independently optional fields.
   */
  datatype ExecuteMsg =
    | UpdateNotifications(tokenId: string, notifications: seq<Notification>)
    | UpdateConfig(owner: Option<Addr>, densAddr: Option<Addr>)

  datatype QueryMsg = GetConfig | GetNotifications(tokenId: string)
}
