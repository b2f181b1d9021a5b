/**
 * The contract over its lifetime: the host delivers `execute` calls one at a time,
 * each running to completion on the store the previous one left. These lemmas state
 * the two authorization policies for whole runs, not just single calls.
 */
module Lifecycle {
  import opened Wrappers
  import opened State
  import opened Contract
  import Msg

  /**
   * One `execute` invocation: its sender, its command, and the ownership registry as it
   * answers at the moment the call runs (ownership may change between calls).
   */
  datatype Call = Call(sender: Addr, msg: Msg.ExecuteMsg, ownerOf: OwnerOf)

  /**
   * The store after the calls run in order, failed ones included. Once configured the
   * contract stays configured, and no token's entry is ever deleted.
   */
  function Run(s: Store, calls: seq<Call>): (t: Store)
    ensures s.config.Some? ==> t.config.Some?
    ensures s.notifications.Keys <= t.notifications.Keys
    decreases |calls|
  {
    if calls == [] then s
    else Run(ExecuteStep(s, calls[0].sender, calls[0].msg, calls[0].ownerOf).store, calls[1..])
  }

  /** Owner gating is total: a run in which the owner sends nothing leaves the config as it was. */
  lemma {:induction false} NonOwnersCannotChangeConfig(s: Store, calls: seq<Call>)
    requires s.config.Some?
    requires forall i :: 0 <= i < |calls| ==> calls[i].sender != s.config.value.owner
    ensures Run(s, calls).config == s.config
    decreases |calls|
  {
    if calls != [] {
      var next := ExecuteStep(s, calls[0].sender, calls[0].msg, calls[0].ownerOf).store;
      assert next.config == s.config;
      var rest := calls[1..];
      assert forall i :: 0 <= i < |rest| ==> rest[i].sender != next.config.value.owner by {
        forall i | 0 <= i < |rest| ensures rest[i].sender != next.config.value.owner {
          assert rest[i] == calls[i + 1];
        }
      }
      NonOwnersCannotChangeConfig(next, rest);
    }
  }

  /**
   * `call`, run on `s`, cannot write the entry of `tokenId`: it is not an
   * `UpdateNotifications` for that token, no config is stored, or the registry at the
   * configured address does not name its sender.
   */
  predicate CannotWriteEntry(s: Store, call: Call, tokenId: string)
  {
    call.msg.UpdateNotifications? && call.msg.tokenId == tokenId && s.config.Some? ==>
      call.ownerOf(s.config.value.densAddr, tokenId) != Ok(call.sender)
  }

  /** No call of the run can write the entry of `tokenId`, each judged on the store it runs on. */
  predicate NoWriter(s: Store, calls: seq<Call>, tokenId: string)
    decreases |calls|
  {
    calls != [] ==>
      CannotWriteEntry(s, calls[0], tokenId) &&
      NoWriter(ExecuteStep(s, calls[0].sender, calls[0].msg, calls[0].ownerOf).store, calls[1..], tokenId)
  }

  /**
   * Registry gating is total: a run in which no call can write the entry of `tokenId`
   * leaves that entry, present or absent, exactly as it was.
   */
  lemma {:induction false} NonHoldersCannotChangeEntry(s: Store, calls: seq<Call>, tokenId: string)
    requires NoWriter(s, calls, tokenId)
    ensures QueryNotifications(Run(s, calls), tokenId) == QueryNotifications(s, tokenId)
    decreases |calls|
  {
    if calls != [] {
      var c := calls[0];
      var o := ExecuteStep(s, c.sender, c.msg, c.ownerOf);
      assert QueryNotifications(o.store, tokenId) == QueryNotifications(s, tokenId) by {
        if c.msg.UpdateNotifications? && o.store.notifications != s.notifications {
          assert c.msg.tokenId != tokenId;
        }
      }
      NonHoldersCannotChangeEntry(o.store, calls[1..], tokenId);
    }
  }

  /**
   * Read after write: once the token's owner has replaced its sequence, `GetNotifications`
   * (whose answer is `NotificationsOrDefault`) gives exactly that sequence, in order, until
   * a call that can write the entry runs.
   */
  lemma ReadAfterWrite(s: Store, sender: Addr, tokenId: string, ns: seq<Notification>, ownerOf: OwnerOf, later: seq<Call>)
    requires UpdateNotificationStep(s, sender, tokenId, ns, ownerOf).result.Ok?
    requires NoWriter(UpdateNotificationStep(s, sender, tokenId, ns, ownerOf).store, later, tokenId)
    ensures NotificationsOrDefault(Run(UpdateNotificationStep(s, sender, tokenId, ns, ownerOf).store, later), tokenId) == ns
  {
    var written := UpdateNotificationStep(s, sender, tokenId, ns, ownerOf).store;
    NonHoldersCannotChangeEntry(written, later, tokenId);
  }

  /**
   * The registry is consulted only at the configured address and only for the given token:
   * two registries that agree there lead to the same outcome.
   */
  lemma OnlyConfiguredRegistryConsulted(s: Store, sender: Addr, tokenId: string, ns: seq<Notification>, f: OwnerOf, g: OwnerOf)
    requires s.config.Some? ==> f(s.config.value.densAddr, tokenId) == g(s.config.value.densAddr, tokenId)
    ensures UpdateNotificationStep(s, sender, tokenId, ns, f) == UpdateNotificationStep(s, sender, tokenId, ns, g)
  {
  }
}
