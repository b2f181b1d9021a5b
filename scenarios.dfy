/**
 * The repository's three unit tests, replayed on fresh storage with the handlers
 * themselves. Each returns what the test inspects, and its contract states what
 * the test expects.
 */
module Scenarios {
  import opened Wrappers
  import opened State
  import opened Contract
  import Msg

  /** The registry of the notification test: it knows one token, owned by "owner". */
  function MockRegistry(densAddr: Addr, tokenId: string): (owner: Result<Addr, StdError>)
  {
    if densAddr == "dens_addr" && tokenId == "token_id" then Ok("owner")
    else Err(GenericErr("no such contract: dens_addr"))
  }

  /** Instantiating from "creator" stores the message's registry address. */
  method ProperInitialization() returns (init: Result<Response, ContractError>, config: Result<QueryResponse, StdError>)
    ensures init.Ok?
    ensures config == Ok(ConfigResponse(Config("creator", "dens_addr")))
  {
    var storage := new Storage();
    init := Instantiate(storage, "creator", Msg.InstantiateMsg("dens_addr"));
    config := Query(storage.Snapshot(), Msg.GetConfig);
  }

  /** "anyone" may not take over the config; "creator" may replace both fields. */
  method UpdateConfigByOwnerOnly()
    returns (denied: Result<Response, ContractError>, allowed: Result<Response, ContractError>,
             config: Result<QueryResponse, StdError>)
    ensures denied == Err(Unauthorized)
    ensures allowed.Ok?
    ensures config == Ok(ConfigResponse(Config("new_owner", "new_dens_addr")))
  {
    var storage := new Storage();
    var _ := Instantiate(storage, "creator", Msg.InstantiateMsg("dens_addr"));
    denied := Execute(storage, "anyone", Msg.UpdateConfig(Some("anyone"), None), MockRegistry);
    allowed := Execute(storage, "creator", Msg.UpdateConfig(Some("new_owner"), Some("new_dens_addr")), MockRegistry);
    config := Query(storage.Snapshot(), Msg.GetConfig);
  }

  /** Only the token's owner, as the registry names it, may set the token's notifications. */
  method UpdateNotificationsByTokenOwnerOnly()
    returns (denied: Result<Response, ContractError>, allowed: Result<Response, ContractError>,
             stored: Result<QueryResponse, StdError>)
    ensures denied == Err(Unauthorized)
    ensures allowed.Ok?
    ensures stored == Ok(NotificationsResponse([Email(EmailNotification("masked_addr", "encoded_addr", "4"))]))
  {
    var storage := new Storage();
    var _ := Instantiate(storage, "creator", Msg.InstantiateMsg("dens_addr"));
    denied := Execute(storage, "anyone", Msg.UpdateNotifications("token_id", []), MockRegistry);
    var email := Email(EmailNotification("masked_addr", "encoded_addr", "4"));
    allowed := Execute(storage, "owner", Msg.UpdateNotifications("token_id", [email]), MockRegistry);
    stored := Query(storage.Snapshot(), Msg.GetNotifications("token_id"));
  }
}
