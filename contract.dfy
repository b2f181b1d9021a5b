/**
 * The contract's handlers. Each state-changing handler is given twice: as a pure
 * step function from the old store to an `Outcome` (new store and reply), whose
 * contract states what the handler promises, and as a method that changes a
 * `Storage` in place step by step and is proved to agree with the step function.
 * Queries only read, so they are functions on a `Store`.
 */
module Contract {
  import opened Wrappers
  import opened State
  import Msg

  /**
   * The host library's error: `NotFound` for an empty storage slot, and `GenericErr` for
   * every other host error (a failed or unparsable registry answer among them), which the
   * handlers pass on unchanged.
   */
  datatype StdError = NotFound(kind: string) | GenericErr(msg: string)

  /** The contract's own error: a propagated host error, or a failed authorization. */
  datatype ContractError = Std(err: StdError) | Unauthorized

  datatype Attribute = Attribute(key: string, value: string)

  /** A reply to a command: its attributes, in order. It never carries sub-messages. */
  datatype Response = Response(attributes: seq<Attribute>)

  datatype QueryResponse = ConfigResponse(config: Config) | NotificationsResponse(notifications: seq<Notification>)

  /** What a command does: the store afterwards, and the reply or the error. */
  datatype Outcome = Outcome(store: Store, result: Result<Response, ContractError>)

  /**
   * The external cw721 registry's `OwnerOf` query: given the registry's address and a
   * token id, the token's current owner, or the error the host querier reports.
   */
  type OwnerOf = (Addr, string) -> Result<Addr, StdError>

  /** The `kind` the host reports when a storage slot is empty. */
  const ConfigKind: string := "Config"
  const NotificationsKind: string := "Vec<Notification>"

  /** The value of the first attribute named `key`, if any. */
  function Lookup(attributes: seq<Attribute>, key: string): (v: Option<string>)
  {
    if attributes == [] then None
    else if attributes[0].key == key then Some(attributes[0].value)
    else Lookup(attributes[1..], key)
  }

  // ---------------------------------------------------------------- queries

  /** `query::config`: load the config slot; an empty slot is `NotFound`. */
  function QueryConfig(s: Store): (r: Result<Config, StdError>)
    ensures r.Ok? <==> s.config.Some?
    ensures r.Ok? ==> r.value == s.config.value
    ensures r.Err? ==> r.error == NotFound(ConfigKind)
  {
    match s.config
    case Some(config) => Ok(config)
    case None => Err(NotFound(ConfigKind))
  }

  /** `query::notifications`: load the entry for `tokenId`; a missing key is `NotFound`. */
  function QueryNotifications(s: Store, tokenId: string): (r: Result<seq<Notification>, StdError>)
    ensures r.Ok? <==> tokenId in s.notifications
    ensures r.Ok? ==> r.value == s.notifications[tokenId]
    ensures r.Err? ==> r.error == NotFound(NotificationsKind)
  {
    if tokenId in s.notifications then Ok(s.notifications[tokenId]) else Err(NotFound(NotificationsKind))
  }

  /** What `GetNotifications` answers: the stored entry, or the empty sequence on any load failure. */
  function NotificationsOrDefault(s: Store, tokenId: string): (r: seq<Notification>)
    ensures tokenId in s.notifications ==> r == s.notifications[tokenId]
    ensures tokenId !in s.notifications ==> r == [] && QueryNotifications(s, tokenId).Err?
  {
    match QueryNotifications(s, tokenId)
    case Ok(ns) => ns
    case Err(_) => []
  }

  /** The `query` entry point: `GetConfig` may fail, `GetNotifications` never does. */
  function Query(s: Store, msg: Msg.QueryMsg): (r: Result<QueryResponse, StdError>)
    ensures msg.GetConfig? ==> (r.Ok? <==> s.config.Some?)
    ensures msg.GetConfig? && r.Ok? ==> r.value == ConfigResponse(s.config.value)
    ensures msg.GetConfig? && r.Err? ==> r.error == NotFound(ConfigKind)
    ensures msg.GetNotifications? ==> r.Ok? && r.value.NotificationsResponse?
    ensures msg.GetNotifications? && msg.tokenId in s.notifications ==>
              r.value.notifications == s.notifications[msg.tokenId]
    ensures msg.GetNotifications? && msg.tokenId !in s.notifications ==> r.value.notifications == []
  {
    match msg
    case GetConfig =>
      (match QueryConfig(s)
       case Ok(config) => Ok(ConfigResponse(config))
       case Err(e) => Err(e))
    case GetNotifications(tokenId) => Ok(NotificationsResponse(NotificationsOrDefault(s, tokenId)))
  }

  // ---------------------------------------------------------------- step functions

  /**
   * `instantiate`: the sender becomes the owner and the message supplies the registry
   * address. The config slot is overwritten whatever it held; notifications are untouched.
   */
  function InstantiateStep(s: Store, sender: Addr, msg: Msg.InstantiateMsg): (o: Outcome)
    ensures o.result.Ok?
    ensures o.store.config == Some(Config(sender, msg.densAddr))
    ensures QueryConfig(o.store) == Ok(Config(sender, msg.densAddr))
    ensures o.store.notifications == s.notifications
    ensures Lookup(o.result.value.attributes, "owner") == Some(sender)
    ensures Lookup(o.result.value.attributes, "dens_addr") == Some(msg.densAddr)
  {
    var config := Config(sender, msg.densAddr);
    Outcome(s.(config := Some(config)), Ok(InstantiateResponse(sender, msg.densAddr)))
  }

  /** The reply of `instantiate`: it reports the new owner and registry address. */
  function InstantiateResponse(owner: Addr, densAddr: Addr): (r: Response)
    ensures Lookup(r.attributes, "owner") == Some(owner)
    ensures Lookup(r.attributes, "dens_addr") == Some(densAddr)
  {
    var attributes := [Attribute("method", "instantiate"), Attribute("owner", owner),
                       Attribute("dens_addr", densAddr)];
    assert Lookup(attributes[2..], "dens_addr") == Some(densAddr);
    Response(attributes)
  }

  /**
   * `execute::update_config`: a read-modify-write of the config slot. Only the stored
   * owner may change it; each `Some` field replaces its counterpart, each `None` keeps it.
   */
  function UpdateConfigStep(s: Store, sender: Addr, newOwner: Option<Addr>, newDensAddr: Option<Addr>): (o: Outcome)
    ensures s.config.None? ==> o == Outcome(s, Err(Std(NotFound(ConfigKind))))
    ensures s.config.Some? && sender != s.config.value.owner ==> o == Outcome(s, Err(Unauthorized))
    ensures o.result.Ok? <==> s.config.Some? && sender == s.config.value.owner
    ensures o.result.Err? ==> o.store == s
    ensures o.store.notifications == s.notifications
    ensures o.result.Ok? ==> o.store.config.Some?
    ensures o.result.Ok? && newOwner.Some? ==> o.store.config.value.owner == newOwner.value
    ensures o.result.Ok? && newOwner.None? ==> o.store.config.value.owner == s.config.value.owner
    ensures o.result.Ok? && newDensAddr.Some? ==> o.store.config.value.densAddr == newDensAddr.value
    ensures o.result.Ok? && newDensAddr.None? ==> o.store.config.value.densAddr == s.config.value.densAddr
    ensures o.result.Ok? ==> Lookup(o.result.value.attributes, "owner") == Some(o.store.config.value.owner)
    ensures o.result.Ok? ==> Lookup(o.result.value.attributes, "dens_addr") == Some(o.store.config.value.densAddr)
  {
    match QueryConfig(s)
    case Err(e) => Outcome(s, Err(Std(e)))
    case Ok(config) =>
      if sender != config.owner then Outcome(s, Err(Unauthorized))
      else
        var updated := Config(newOwner.GetOr(config.owner), newDensAddr.GetOr(config.densAddr));
        Outcome(s.(config := Some(updated)), Ok(UpdateConfigResponse(updated)))
  }

  /** The reply of a successful `update_config`: it reports the config now stored. */
  function UpdateConfigResponse(config: Config): (r: Response)
    ensures Lookup(r.attributes, "owner") == Some(config.owner)
    ensures Lookup(r.attributes, "dens_addr") == Some(config.densAddr)
  {
    var attributes := [Attribute("action", "update_config"), Attribute("dens_addr", config.densAddr),
                       Attribute("owner", config.owner)];
    assert Lookup(attributes[2..], "owner") == Some(config.owner);
    Response(attributes)
  }

  /**
   * `execute::update_notification`: the registry at the CONFIGURED address is asked who
   * owns `tokenId`; only that owner may replace the token's notification sequence.
   * Registry errors are propagated as they are, not turned into `Unauthorized`.
   */
  function UpdateNotificationStep(s: Store, sender: Addr, tokenId: string, ns: seq<Notification>, ownerOf: OwnerOf): (o: Outcome)
    ensures s.config.None? ==> o == Outcome(s, Err(Std(NotFound(ConfigKind))))
    ensures s.config.Some? && ownerOf(s.config.value.densAddr, tokenId).Err? ==>
              o == Outcome(s, Err(Std(ownerOf(s.config.value.densAddr, tokenId).error)))
    ensures s.config.Some? && ownerOf(s.config.value.densAddr, tokenId).Ok? &&
            ownerOf(s.config.value.densAddr, tokenId).value != sender ==>
              o == Outcome(s, Err(Unauthorized))
    ensures o.result.Ok? <==> s.config.Some? && ownerOf(s.config.value.densAddr, tokenId) == Ok(sender)
    ensures o.result.Err? ==> o.store == s
    ensures o.store.config == s.config
    ensures o.result.Ok? ==> o.store.notifications == s.notifications[tokenId := ns]
    ensures o.result.Ok? ==> NotificationsOrDefault(o.store, tokenId) == ns
    ensures forall t :: t != tokenId ==> NotificationsOrDefault(o.store, t) == NotificationsOrDefault(s, t)
    ensures o.result.Ok? ==> Lookup(o.result.value.attributes, "token_id") == Some(tokenId)
  {
    match QueryConfig(s)
    case Err(e) => Outcome(s, Err(Std(e)))
    case Ok(config) =>
      match ownerOf(config.densAddr, tokenId)
      case Err(e) => Outcome(s, Err(Std(e)))
      case Ok(owner) =>
        if owner != sender then Outcome(s, Err(Unauthorized))
        else Outcome(s.(notifications := s.notifications[tokenId := ns]), Ok(UpdateNotificationResponse(tokenId)))
  }

  /** The reply of a successful `update_notification`: it names the token written. */
  function UpdateNotificationResponse(tokenId: string): (r: Response)
    ensures Lookup(r.attributes, "token_id") == Some(tokenId)
  {
    Response([Attribute("action", "update_notification"), Attribute("token_id", tokenId)])
  }

  /**
   * `execute`: routes each of the two commands to its handler. Whatever the command,
   * a failure changes nothing, the config changes only by its owner's `UpdateConfig`,
   * and the notification map changes only at the token an `UpdateNotifications` names.
   */
  function ExecuteStep(s: Store, sender: Addr, msg: Msg.ExecuteMsg, ownerOf: OwnerOf): (o: Outcome)
    ensures o.result.Err? ==> o.store == s
    ensures o.store.config != s.config ==>
              msg.UpdateConfig? && s.config.Some? && sender == s.config.value.owner
    ensures s.config.Some? ==> o.store.config.Some?
    ensures msg.UpdateConfig? ==> o.store.notifications == s.notifications
    ensures msg.UpdateNotifications? ==> o.store.config == s.config
    ensures msg.UpdateNotifications? ==>
              o.store.notifications == s.notifications ||
              o.store.notifications == s.notifications[msg.tokenId := msg.notifications]
    ensures msg.UpdateNotifications? && o.store.notifications != s.notifications ==>
              s.config.Some? && ownerOf(s.config.value.densAddr, msg.tokenId) == Ok(sender)
  {
    match msg
    case UpdateNotifications(tokenId, ns) => UpdateNotificationStep(s, sender, tokenId, ns, ownerOf)
    case UpdateConfig(owner, densAddr) => UpdateConfigStep(s, sender, owner, densAddr)
  }

  // ---------------------------------------------------------------- handlers on storage

  /** `instantiate`, writing the config slot in place. */
  method Instantiate(storage: Storage, sender: Addr, msg: Msg.InstantiateMsg) returns (r: Result<Response, ContractError>)
    modifies storage
    ensures Outcome(storage.Snapshot(), r) == InstantiateStep(old(storage.Snapshot()), sender, msg)
    ensures storage.config == Some(Config(sender, msg.densAddr))
    ensures storage.notifications == old(storage.notifications)
  {
    var config := Config(sender, msg.densAddr);
    storage.SaveConfig(config);
    r := Ok(InstantiateResponse(sender, msg.densAddr));
  }

  /** `execute::update_config`, as a load, a guard, field-by-field assignment and a save. */
  method UpdateConfig(storage: Storage, sender: Addr, newOwner: Option<Addr>, newDensAddr: Option<Addr>)
    returns (r: Result<Response, ContractError>)
    modifies storage
    ensures Outcome(storage.Snapshot(), r) == UpdateConfigStep(old(storage.Snapshot()), sender, newOwner, newDensAddr)
    ensures r.Err? ==> storage.config == old(storage.config)
    ensures storage.notifications == old(storage.notifications)
  {
    var loaded := QueryConfig(storage.Snapshot());
    if loaded.Err? {
      return Err(Std(loaded.error));
    }
    var config := loaded.value;
    if sender != config.owner {
      return Err(Unauthorized);
    }
    if newOwner.Some? {
      config := config.(owner := newOwner.value);
    }
    if newDensAddr.Some? {
      config := config.(densAddr := newDensAddr.value);
    }
    storage.SaveConfig(config);
    r := Ok(UpdateConfigResponse(config));
  }

  /** `execute::update_notification`: load, ask the registry, compare, save. */
  method UpdateNotification(storage: Storage, sender: Addr, tokenId: string, ns: seq<Notification>, ownerOf: OwnerOf)
    returns (r: Result<Response, ContractError>)
    modifies storage
    ensures Outcome(storage.Snapshot(), r) == UpdateNotificationStep(old(storage.Snapshot()), sender, tokenId, ns, ownerOf)
    ensures storage.config == old(storage.config)
    ensures r.Err? ==> storage.notifications == old(storage.notifications)
  {
    var loaded := QueryConfig(storage.Snapshot());
    if loaded.Err? {
      return Err(Std(loaded.error));
    }
    var config := loaded.value;
    var answer := ownerOf(config.densAddr, tokenId);
    if answer.Err? {
      return Err(Std(answer.error));
    }
    if answer.value != sender {
      return Err(Unauthorized);
    }
    storage.SaveNotifications(tokenId, ns);
    r := Ok(UpdateNotificationResponse(tokenId));
  }

  /** `execute`: dispatch on the command. */
  method Execute(storage: Storage, sender: Addr, msg: Msg.ExecuteMsg, ownerOf: OwnerOf)
    returns (r: Result<Response, ContractError>)
    modifies storage
    ensures Outcome(storage.Snapshot(), r) == ExecuteStep(old(storage.Snapshot()), sender, msg, ownerOf)
  {
    match msg
    case UpdateNotifications(tokenId, ns) =>
      r := UpdateNotification(storage, sender, tokenId, ns, ownerOf);
    case UpdateConfig(owner, densAddr) =>
      r := UpdateConfig(storage, sender, owner, densAddr);
  }
}
