/**
 * The contract's persistent state: the `Config` singleton, the notification
 * payloads, and the two storage slots that hold them.
 */
module State {
  import opened Wrappers

  /** A chain address; only ever compared for equality. */
  type Addr = string

  /** The singleton configuration: who may change it, and where the ownership registry lives. */
  datatype Config = Config(owner: Addr, densAddr: Addr)

  /** Three opaque strings the contract stores but never inspects. */
  datatype EmailNotification = EmailNotification(maskedAddr: string, encodedAddr: string, preferences: string)

  datatype WebhookNotification = WebhookNotification(maskedUrl: string, encodedUrl: string, preferences: string)

  /** A notification target: a closed sum of exactly two variants. */
  datatype Notification = Email(email: EmailNotification) | Webhook(webhook: WebhookNotification)

  /**
   * A read-only view of storage: the `CONFIG` item (absent before instantiation)
   * and the `NOTIFICATIONS` map from token id to a whole sequence of notifications.
   */
  datatype Store = Store(config: Option<Config>, notifications: map<string, seq<Notification>>)

  /** The host's mutable storage, holding the two slots. */
  class Storage {
    var config: Option<Config>
    var notifications: map<string, seq<Notification>>

    /** Fresh storage, as the host provides it before instantiation. */
    constructor ()
      ensures config == None && notifications == map[]
    {
      config := None;
      notifications := map[];
    }

    /** The current contents as a value. */
    function Snapshot(): (s: Store)
      reads this
    {
      Store(config, notifications)
    }

    /** `CONFIG.save`: the single slot is replaced as a whole. */
    method SaveConfig(c: Config)
      modifies this
      ensures config == Some(c)
      ensures notifications == old(notifications)
    {
      config := Some(c);
    }

    /** `NOTIFICATIONS.save`: the entry for `key` is replaced by `ns`; other keys are untouched. */
    method SaveNotifications(key: string, ns: seq<Notification>)
      modifies this
      ensures notifications == old(notifications)[key := ns]
      ensures config == old(config)
    {
      notifications := notifications[key := ns];
    }
  }
}
