# howl-pack contract — a verified model

The howl-pack contract is a CosmWasm smart contract that keeps, per token of an
external cw721 registry (the "dens" registry), the list of notification targets
(e-mail or webhook) its owner wants. It stores two things: a singleton `Config`
(the `owner` who may change it and the `dens_addr` of the registry) and a map from
token id to a whole sequence of `Notification`s. It has two authorization policies:

- `UpdateConfig` is allowed only to the stored owner; each optional field it carries
  replaces its counterpart, an absent field keeps its value.
- `UpdateNotifications` asks the registry **at the configured address** who owns the
  token, and allows the write only when that owner is the sender. A registry error is
  propagated as it is; the stored sequence is replaced, never merged.

Queries return the config (an error before instantiation) or a token's sequence (the
empty sequence when nothing was stored).

## Layout

- `wrappers.dfy`: `Option` and `Result`.
- `state.dfy` (`src/state.rs`): `Config`, the two-variant `Notification` with its
  payload records, the `Store` value (the `CONFIG` item and the `NOTIFICATIONS` map),
  and the `Storage` class whose fields the handlers update in place. The declarations
  themselves state the structural facts: `Config` has exactly two address fields and
  datatype equality is field-wise, `Notification` is a closed sum of `Email` and
  `Webhook`, each payload is three uninterpreted strings, and a token id maps to one
  whole sequence.
- `msg.dfy` (`src/msg.rs`): `InstantiateMsg` (only the registry address),
  `ExecuteMsg` (exactly two commands; `UpdateConfig` with two independent options),
  `QueryMsg` (exactly two queries).
- `contract.dfy` (`src/contract.rs`): every handler is a pure step function from the
  old `Store` to an `Outcome` (new store and reply), whose contract states what the
  handler promises, plus a method that updates a `Storage` step by step as the Rust
  code does and is proved to produce that same outcome. Queries are functions on a `Store`.
- `lifecycle.dfy`: runs of `execute` calls delivered one after another, and the two
  authorization policies proved for whole runs.
- `scenarios.dfy`: the repository's three unit tests, replayed with the handlers on
  fresh storage.

The registry is an injected function `OwnerOf = (Addr, string) -> Result<Addr, StdError>`;
in a run each call carries the registry's answers at the moment it runs, because
token ownership may change between calls.

The registry address is the config field `dens_addr`. Every host error, whether a
missing config or a failed registry query, reaches the caller as `ContractError::Std`.
`update_notification` fails with the host's `NotFound` when no config is stored.

## Model

| member | source | states |
|---|---|---|
| `Contract.QueryConfig` | src/contract.rs:135-138 | the stored config when the slot holds one, `NotFound` exactly when it is empty |
| `Contract.QueryNotifications` | src/contract.rs:140-143 | the token's stored sequence when present, `NotFound` exactly when the key was never written |
| `Contract.NotificationsOrDefault` | src/contract.rs:124-126 | the stored sequence, or the empty sequence exactly where the strict load fails |
| `Contract.Query` | src/contract.rs:121-128 | `GetConfig` answers the stored config or `NotFound`; `GetNotifications` never fails and answers the stored sequence or `[]` |
| `Contract.InstantiateStep` | src/contract.rs:17-34 | always succeeds; config becomes exactly `{owner: sender, dens_addr: msg.dens_addr}` whatever was stored, `GetConfig` returns it, notifications untouched, reply reports owner and dens_addr |
| `Contract.UpdateConfigStep` | src/contract.rs:91-117 | succeeds iff a config is stored and the sender is its owner; no config gives `NotFound`, another sender `Unauthorized`, and any error leaves the store unchanged; on success each field equals the supplied value when `Some` and its old value when `None`; notifications never change; reply attributes equal the new config |
| `Contract.UpdateConfigResponse` | src/contract.rs:113-116 | the reply's `owner` and `dens_addr` attributes are the given config's fields |
| `Contract.InstantiateResponse` | src/contract.rs:30-33 | the reply's `owner` and `dens_addr` attributes are the new owner and the message's registry address |
| `Contract.UpdateNotificationResponse` | src/contract.rs:85-88 | the reply's `token_id` attribute is the token written |
| `Contract.UpdateNotificationStep` | src/contract.rs:62-89 | succeeds iff a config is stored and the registry at the stored `dens_addr` answers `Ok(sender)` for this token; a missing config or a registry error is propagated, another owner gives `Unauthorized`; errors change nothing; on success the token's entry is exactly the supplied sequence, every other key and the config are unchanged, and `GetNotifications` returns the sequence |
| `Contract.ExecuteStep` | src/contract.rs:36-52 | any failed command leaves the store unchanged; config changes only by its owner's `UpdateConfig` and never becomes absent; `UpdateNotifications` changes the config never and the map only at its own token, only when the registry names the sender |
| `Contract.Instantiate` | src/contract.rs:17-34 | writes the config slot in place and yields the outcome of `InstantiateStep` |
| `Contract.UpdateConfig` | src/contract.rs:91-117 | load, owner check, field-by-field patch and save in place; yields the outcome of `UpdateConfigStep`; on error the config slot is untouched |
| `Contract.UpdateNotification` | src/contract.rs:62-89 | load, registry query at the stored address, sender comparison and save in place; yields the outcome of `UpdateNotificationStep` |
| `Contract.Execute` | src/contract.rs:36-52 | routes each command to its handler; yields the outcome of `ExecuteStep` |
| `State.Storage.SaveConfig` | src/state.rs:14 | the single config slot is replaced as a whole; the notification map is untouched |
| `State.Storage.SaveNotifications` | src/state.rs:36 | only the given key's entry is replaced, by the whole sequence; the config is untouched |
| `Lifecycle.Run` | src/contract.rs:36-52 | over any sequence of calls, a configured contract stays configured and no token's entry is ever removed |
| `Lifecycle.NonOwnersCannotChangeConfig` | src/contract.rs:97-100 | a run of calls none of which is sent by the owner leaves the config exactly as it was |
| `Lifecycle.NonHoldersCannotChangeEntry` | src/contract.rs:79-83 | a run in which no call is an `UpdateNotifications` for the token from a sender the registry, asked at the address configured when that call runs, names as owner leaves the token's entry (present or absent) exactly as it was |
| `Lifecycle.ReadAfterWrite` | src/contract.rs:83 | after a successful update, the `GetNotifications` answer is exactly the written sequence for as long as no call that can write the entry runs |
| `Lifecycle.OnlyConfiguredRegistryConsulted` | src/contract.rs:68-77 | the outcome depends on the registry only through its answer at the stored `dens_addr` for the given token |
| `Scenarios.ProperInitialization` | src/contract.rs:159-173 | after instantiation by "creator" with "dens_addr", `GetConfig` returns `{creator, dens_addr}` |
| `Scenarios.UpdateConfigByOwnerOnly` | src/contract.rs:176-207 | "anyone" gets `Unauthorized`; "creator" succeeds and `GetConfig` then returns `{new_owner, new_dens_addr}` |
| `Scenarios.UpdateNotificationsByTokenOwnerOnly` | src/contract.rs:210-287 | with a registry naming "owner", "anyone" gets `Unauthorized`, "owner" succeeds and `GetNotifications` returns the single e-mail notification |

## Left out

- The cw2 contract-version write at instantiation: it fills an unrelated slot through a foreign library.
- JSON encoding of messages and replies (`to_binary`, `from_binary`, `Binary`), entry-point plumbing, `Env`, attached funds and gas: query answers are the typed `QueryResponse` instead.
- The querier transport: the `OwnerOf` request's encoding, its `include_expired` flag and the unused `approvals` of the answer; the registry is the injected `OwnerOf` function.
- Failures of storage itself (a save that fails, stored bytes that do not decode): loads fail only on an empty slot or missing key, so the default-on-miss of `GetNotifications` is shown swallowing only that error.
- The `NotFound` kinds are stand-ins for the host's type names.
- `src/error.rs` is not part of this model: of `ContractError` only the two variants the core raises are modelled.
- `Contract.UpdateNotificationResponse`: the reply (and so that of `Contract.UpdateNotificationStep`) omits the `notifications` attribute, whose value is the Debug rendering of the sequence.
