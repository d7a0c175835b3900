# Relay-node registry: a verified model

This project models the registry canister of a small peer-to-peer relay
network. Relay servers register with the canister under their caller
principal. They send periodic heartbeats, collect a reputation score, and
are matched to clients by server name. The canister holds one aggregate,
`ServerRegistry`, made of two maps:

- `servers` maps a principal to a server record. A record holds the server's
  name, public key, IP address, last-active time in seconds, and an `i32`
  reputation.
- `client_assignments` maps a server name to the public key of a client
  that is waiting to be handed to that server.

There are four update calls and one query:

- `register_server` creates a record and refuses a principal that already
  has one.
- `update_reputation` adds a signed delta to a record's score.
- `heartbeat` hands the caller the client pending under its server name. If
  no client is pending, it refreshes the caller's last-active time. It never
  does both.
- `select_server` finds a record by name, queues the client's key under that
  name and answers with the record's key and address.
- `get_active_servers` lists every record heard from in the last 30 seconds,
  inclusive.

Files:

- `registry.dfy` (module `Registry`) holds the data model. Each update call
  appears twice there. A pure transition function (`RegisterStep`,
  `UpdateReputationStep`, `HeartbeatStep`, `SelectServerStep`) maps the old
  snapshot to the new snapshot and the reply, and its contract states the
  outcome and everything that stays unchanged. A method of the class
  `ServerRegistry` updates the two map fields in place and is proved equal
  to that function. The query is the pure function `ActiveServers`.
- `properties.dfy` (module `RegistryProperties`) proves what holds across
  several calls. Registering twice keeps the first record. Reputation is
  additive. A selected client is delivered exactly once. The liveness
  window is inclusive at 30 seconds. No run of calls ever deletes a record
  or renames it. While the host clock moves forward, no record's
  last-active time moves back.

The caller principal and the current time in whole seconds are parameters.
The host supplies them as `ic_cdk::caller()` and `time() / 1_000_000_000`.
`u64` timestamps and `i32` scores are newtypes over their exact ranges.
`saturating_sub` is written out.

`select_server` searches `servers.values()` with `find`. The search follows
hash-map order, so when several records share a name, any of them may be
the one found. The model makes that choice a parameter, `pick`, limited by
`ValidPick` to a record with the requested name. The method returns the
choice it made as a ghost out-parameter.

## Model

| member | source | states |
|---|---|---|
| `Registry.RegisterStep` | canister/src/finalVER_backend/src/lib.rs:43-56 | The reply is `AlreadyRegistered` iff the caller has a record, and then nothing changes. Otherwise exactly one record is added, under the caller, with the given name, key and IP, `last_active = now` and reputation 0. Every other record and all pending assignments are unchanged. |
| `Registry.UpdateReputationStep` | canister/src/finalVER_backend/src/lib.rs:68-76 | An unknown principal gets `UnknownPrincipal` and nothing changes. A known one has its score set to old + delta, and the reply carries its server name and the new score. Every other field, every other record and all assignments are unchanged. |
| `Registry.HeartbeatStep` | canister/src/finalVER_backend/src/lib.rs:88-99 | An unknown caller gets `UnknownCaller` and nothing changes. If a client is pending under the caller's name, the entry is removed and its key returned, and `servers` is unchanged, so `last_active` is not refreshed. Otherwise only the caller's `last_active` becomes `now`, and the assignments are unchanged. |
| `Registry.SelectServerStep` | canister/src/finalVER_backend/src/lib.rs:109-119 | The call succeeds iff some record has the requested name. On success it returns the found record's key and IP. It sets the assignment under the name to the client key, overwriting any earlier one, and leaves `servers` and all other assignments unchanged. On failure nothing changes. |
| `Registry.ActiveServers` | canister/src/finalVER_backend/src/lib.rs:127-136 | A record is listed iff `now <= last_active + 30` on unbounded integers, which agrees with the saturating `u64` test. The listing holds exactly one `(name, key, IP, reputation)` tuple per such record, copied from it. |
| `Registry.ServerRegistry.constructor` | canister/src/finalVER_backend/src/lib.rs:22-26 | A new registry (the derived `Default`) has no servers and no assignments. |
| `Registry.ServerRegistry.RegisterServer` | canister/src/finalVER_backend/src/lib.rs:34-58 | The in-place update of both maps and the reply equal `RegisterStep` of the old state. |
| `Registry.ServerRegistry.UpdateReputation` | canister/src/finalVER_backend/src/lib.rs:62-76 | The in-place update and the reply equal `UpdateReputationStep` of the old state. |
| `Registry.ServerRegistry.Heartbeat` | canister/src/finalVER_backend/src/lib.rs:80-99 | The in-place update and the reply equal `HeartbeatStep` of the old state. |
| `Registry.ServerRegistry.SelectServer` | canister/src/finalVER_backend/src/lib.rs:103-119 | The record the search lands on has the requested name whenever one exists. The in-place update and the reply equal `SelectServerStep` of the old state for that record. |
| `RegistryProperties.RegisterTwiceKeepsFirst` | canister/src/finalVER_backend/src/lib.rs:43-56 | Two registrations by a new principal give `Registered` then `AlreadyRegistered`. The second leaves the registry as the first left it, with the first call's record. |
| `RegistryProperties.RecordsNeverDeleted` | canister/src/finalVER_backend/src/lib.rs:43-119 | Over any run of calls, every record present at the start is still present, with the same name, key and IP. |
| `RegistryProperties.LastActiveNeverDecreases` | canister/src/finalVER_backend/src/lib.rs:47-96 | Take a run whose registration and heartbeat times never go backwards from a time `t`, starting from records all last active no later than `t`. Every starting record survives the run, and its last-active time never goes down. No record ends up active later than the run's last clock reading. |
| `RegistryProperties.ReputationIsAdditive` | canister/src/finalVER_backend/src/lib.rs:68-73 | After a sequence of updates whose running totals fit in `i32`, the score is the old score plus the sum of the deltas, negative totals included. Nothing else in the registry changes. |
| `RegistryProperties.UnknownPrincipalUnchanged` | canister/src/finalVER_backend/src/lib.rs:74-76 | Any number of updates for a principal without a record leave the registry unchanged. |
| `RegistryProperties.AssignmentDeliveredOnce` | canister/src/finalVER_backend/src/lib.rs:88-117 | After a successful selection, the next heartbeat from any server with that name returns the client key. That heartbeat leaves the records, including `last_active`, unchanged and consumes the entry. The following heartbeat records liveness at its own time. |
| `RegistryProperties.NoAssignmentWithoutSelect` | canister/src/finalVER_backend/src/lib.rs:114 | A run of calls that does not select a name never creates a pending client under that name. |
| `RegistryProperties.NoRedelivery` | canister/src/finalVER_backend/src/lib.rs:88-96 | After a delivering heartbeat and any calls that do not select that name, a heartbeat from a server with that name only records liveness. It never returns a client again. |
| `RegistryProperties.SharedNameHandsClientToOther` | canister/src/finalVER_backend/src/lib.rs:109-114 | Two records share a name, and the selection returns server `a`'s key and IP. Server `b`'s heartbeat still takes the client, and `a` then only records liveness. |
| `RegistryProperties.LivenessWindowBoundary` | canister/src/finalVER_backend/src/lib.rs:129 | A record is listed 30 seconds after its last heartbeat and not listed at 31. A last-active time later than `now` counts as active, because of the saturating subtraction. |
| `RegistryProperties.HeartbeatAndDirectory` | canister/src/finalVER_backend/src/lib.rs:88-96 | A liveness heartbeat lists the caller at that moment. A delivering heartbeat, or one from an unknown caller, leaves the directory the same at every time, so an assigned server ages out. |
| `RegistryProperties.SelectLeavesDirectory` | canister/src/finalVER_backend/src/lib.rs:109-117 | A selection leaves the directory the same at every time. |
| `RegistryProperties.Session` | canister/src/finalVER_backend/src/lib.rs:33-136 | A concrete session. The server registers at 1000, is listed at 1010 and gone at 1032. A selection returns its key and IP. The next heartbeat delivers the client and keeps `last_active` at 1000. Selecting an unknown name changes nothing. Updates of +5 and -2 give a score of 3. |

## Left out

- `Registry.UpdateReputationStep`: requires the new score to fit in `i32`. `reputation += delta` overflowing is not modelled. A debug build panics there; a release build wraps around.
- `Registry.ServerRegistry.UpdateReputation`: has the same `i32` precondition as `UpdateReputationStep`, for the same reason.
- Loading and saving the registry through stable memory (`stable_restore`, `stable_save`) is left out. So is the silent fallback to an empty registry when loading fails. The registry is always in memory.
- The `#[ic_cdk::init]` hook and Candid serialisation are left out. The constructor gives the empty registry that `init` saves.
- `ic_cdk::caller()` and `ic_cdk::api::time()` are host calls; the model takes the caller and the time in seconds as parameters. A principal is modelled as its byte string.
- The wording of the returned messages is not modelled. Each reply is a datatype case. It carries the values the message reports, except the call's own inputs (caller, principal, name, IP), which the messages only echo.
- The order of `get_active_servers`' vector, which follows hash-map order, is not modelled. `ActiveServers` returns the tuples keyed by the principal of the record they come from.
- Which record `select_server` finds among those with the same name depends on hash-map order. It is not modelled; it is the `pick` parameter.
- `server/server.rs` and `client/client.rs` are not modelled. They cover WireGuard provisioning, shell commands, HTTP calls to the canister, the 30-second heartbeat loop, stdin menus and config files, all of which are I/O.
