# relay — a Dafny model of the session registry, the router and the connection handler

The relay is a presence-aware message relay. Clients connect over a WebSocket and name themselves with a string identifier. A message for a client who is connected is handed straight to that client's connection. A message for a known client who is offline is stored in a SQLite `MAIL` table, where it can be fetched later.

This project models the logic of `src/database.rs` and `src/main.rs`.

- `database.dfy`, module `Database`. The `Database` class has two fields: `sessions`, a `map<string, Session>` that its methods update in place, and `mail`, the rows of the `MAIL` table as an append-only `seq<Row>`.
  - Value functions state what each update does: `Activated`, `Deactivated`, and `MailsFor` (what a fetch collects).
  - The class methods are proved against those functions.
  - `Valid()` is the registry invariant: every live session has an address.
- `relay.dfy`, module `Relay`. It has the `Server` actor, which shares the `Database`, and the `Client` actor. Each actor message type is a datatype, and each handler is a method that takes one message.
  - The routing decision is the function `Route`. The registry after one or more Server messages is given by `Apply` and `Run`, and lemmas over whole runs sit on top of those.
  - `Client.Handle` takes one incoming frame and returns the list of effects the runtime performs (send to the server, text, pong, binary, close, stop). It also refreshes the heartbeat `hb`.
- `scenario.dfy`, module `Scenario`. One run that ties the two actors together: alice activates, bob writes to her, alice closes, bob writes again. A second run has bob write to an unknown "carol".
- `wrappers.dfy`, `handles.dfy`, `types.dfy`: `Option`/`Result`, the opaque actor addresses (`ClientAddr`, `ServerAddr`), and `Email` from `src/types.rs`.

Representation choices:

- An actor address is an opaque handle.
- `Instant` is a `nat` clock reading, passed to the client handler as `now`.
- serde_json decoding is a function parameter `decode: string -> Result<JsonMessage, DecodeError>`.
- A failure of the storage engine is a boolean parameter. `storeFails` stands for the insert failing. `queryFails` stands for `query_map` returning an error before any row is read; errors while stepping through rows are not modelled (see `GetMailsFor` under "## Left out").
- A `MAIL` cell is `Text(s)` or `NonText`. A row whose cells are not both text fails to decode. Such rows can exist because the table is opened from a file that other code may have written.
- The SQL filter `dest = ?` is modelled as matching exactly the rows whose `dest` cell is the text of the identifier.

The code differs from what one might expect of such a relay in several ways, and the model follows the code:

- A forward to an identifier that was never activated is dropped, with only a printed error (`src/main.rs:104`). It is not stored. `Route` proves this, and `Scenario.StrangerIsDropped` shows it for "carol".
- `Client.id` is set to `""` (`src/main.rs:119`) and never assigned. So the `Disconnect` a client sends on close always names `""`.
  - Alice's session therefore stays alive after she closes, and bob's second message is delivered live to her stale address instead of being stored (`Scenario.AliceAndBob`).
  - Through the actors, only the session for `""` can ever go offline (`Relay.OnlyEmptyIdGoesOffline`).
- The Server ignores an `ActiveMessage` for any known identifier, including a deactivated one (`src/main.rs:71-73`). So through the Server a known identifier's stored address never changes: a client that reconnects under it keeps being routed to its old connection (`Relay.KnownAddrNeverChanges`). The overwrite branch of `activate_self` is modelled and proved, but the Server never reaches it.
- One might expect a fetch to return mail in insertion order. The query has no `ORDER BY`, so `GetMailsFor` promises only the multiset of what it returns.

## Model

| member | source | states |
|---|---|---|
| `Database.Activated` | src/database.rs:108-133 | the activated entry is alive, with the given address and password whatever it held before; the key set gains exactly that identifier; every other entry is unchanged; "live implies an address" is preserved |
| `Database.Deactivated` | src/database.rs:135-143 | a known entry becomes not alive with no password but keeps its old address; an unknown identifier leaves the registry unchanged, with no entry created; keys and all other entries are unchanged; the invariant is preserved |
| `Database.MailsFor` | src/database.rs:62-78 | what one fetch collects: at most one mail per row, each addressed to the queried identifier |
| `Database.MailsForMember` | src/database.rs:62-78 | a mail is fetched for `d` exactly when its destination is `d` and some row holds text `d` and that text payload; other destinations and undecodable rows are omitted |
| `Database.SaveThenFetch` | src/database.rs:102-105 | saving `m` for `d` adds exactly `{payload: m, destination: d}` to what is fetched for `d` and changes nothing fetched for any other identifier |
| `Database.Database.constructor` | src/database.rs:26-31 | a new database has an empty registry over the existing table |
| `Database.Database.GetAddr` | src/database.rs:33-38 | `None` for an unknown identifier, otherwise the stored address, which is present whenever the session is alive |
| `Database.Database.IsAlive` | src/database.rs:145-150 | `Err(NoRows)` exactly for identifiers not in the registry, otherwise `Ok` of the session's liveness |
| `Database.Database.GetMailsFor` | src/database.rs:41-79 | fails exactly when the query fails; otherwise returns the same multiset of mails as `MailsFor` on the table; deletes nothing |
| `Database.Database.SaveMailFor` | src/database.rs:81-106 | on success appends exactly one row `{dest, payload}` and reports one row written; on failure the table is unchanged |
| `Database.Database.ActivateSelf` | src/database.rs:108-133 | always returns `Ok(())`; the registry becomes `Activated(old, id, password, addr)`; the invariant is kept |
| `Database.Database.Deactivate` | src/database.rs:135-143 | the registry becomes `Deactivated(old, id)`; the invariant is kept |
| `Relay.AfterActive` | src/main.rs:64-78 | a known identifier, alive or not, leaves the registry unchanged; an unknown one gets a live session with the given password and the sender's address; no other entry changes |
| `Relay.Route` | src/main.rs:88-107 | delivered to the stored address iff the destination is live and has one; stored iff known, not alive, and the write succeeds; panics iff the write fails; `NoRows` drop iff the destination is unknown; the no-address case iff it is live without an address, which the invariant excludes; at most one of delivery and storage |
| `Relay.Apply` | src/main.rs:64-107 | one Server message never removes a session; only activation adds a key; a forward leaves the registry unchanged; the invariant is preserved |
| `Relay.Run` | src/main.rs:64-107 | over any run of Server messages the known identifiers only grow and the invariant is preserved |
| `Relay.RunKnownIds` | src/main.rs:71-77 | after a run, the known identifiers are exactly those known before plus those some `ActiveMessage` named, so `is_alive` fails exactly for identifiers never activated |
| `Relay.OnlyEmptyIdGoesOffline` | src/main.rs:168-171 | when every `Disconnect` names `""`, as clients send them, no session with a non-empty identifier goes from alive to not alive |
| `Relay.KnownAddrNeverChanges` | src/main.rs:71-73 | over any run of Server messages, an identifier known at the start stays known with the same stored address |
| `Relay.DeactivatedIsPersisted` | src/main.rs:91-102 | after `deactivate(id)` on a known identifier, a forward to it is stored and not delivered, although the old address is still held |
| `Relay.Server.constructor` | src/main.rs:25-29 | the Server holds the shared database |
| `Relay.Server.HandleActive` | src/main.rs:64-78 | the registry becomes `AfterActive(old, msg)`; the mail table is unchanged; the `unwrap` never panics |
| `Relay.Server.HandleDisconnect` | src/main.rs:81-86 | the registry becomes `Deactivated(old, msg.id)`; the mail table is unchanged |
| `Relay.Server.HandleForward` | src/main.rs:88-107 | the registry is unchanged; the outcome is `Route(old, msg)`; exactly one row `{next, mail}` is appended when the outcome is `Persisted`, and none otherwise |
| `Relay.Server.Dispatch` | src/main.rs:64-107 | the registry becomes `Apply(old, msg)`; only a forward has a routing outcome; the mail table changes only on `Persisted` |
| `Relay.Client.constructor` | src/main.rs:117-123 | a new client has `id == ""`, the server address and `hb == now` |
| `Relay.Client.HandleForward` | src/main.rs:130-136 | a routed message is written to the peer verbatim as one text frame |
| `Relay.Client.Handle` | src/main.rs:138-182 | ping refreshes `hb` and pongs the same bytes; pong refreshes `hb`; binary is echoed; `SendMail` goes to the server unchanged; `ActivationMessage((a, b))` becomes `ActiveMessage{a, b, own address}`; `Empty` only refreshes `hb`; a decode error does nothing; close sends `Disconnect("")`, closes and stops; a protocol error or any other frame only stops; `id` is never assigned |
| `Scenario.AliceAndBob` | src/main.rs:64-181 | alice activates and bob writes "hi", which is delivered live to alice's address, and her client writes "hi" to the peer as text; alice closes, her session stays alive, and "bye" is delivered live to her stale address, where the client would write "bye"; nothing is stored |
| `Scenario.StrangerIsDropped` | src/main.rs:88-107 | a message to never-activated "carol" is dropped with `NoRows` and nothing is stored |

## Left out

- HTTP and WebSocket bootstrap, CORS, binding and logging (`index`, `main`): I/O plumbing.
- `get_mailbox`: a thin wrapper that serialises `get_mails_for` to JSON and maps any error to the fixed text "Failed to get mail".
- SQLite itself (`Connection::open`, `prepare`, `execute`). The table is a sequence of rows, and a failure is a boolean parameter. The `unwrap` panics on `Connection::open` and `prepare` are not modelled.
- The commented-out bincode/blob variants of `get_mails_for` and `save_mail_for`: dead code.
- serde_json decoding of `JsonMessage`: a foreign library. Its result is an input, through the function parameter `decode`.
- Actor mailboxes and the asynchrony of `do_send`, including delivery to a stopped actor. `Server.HandleForward` stops at the `Delivered(to, msg)` outcome. Only `Scenario.AliceAndBob` passes the delivered message on to the client at `to`, by calling `Client.HandleForward`; it does not model that alice's actor has stopped by then.
- The `Mutex` locking. `Server.HandleForward` is modelled as one indivisible step. The source has three `lock()` sites, and one forward reaches at most two of them. The `MutexGuard` taken in the `match` scrutinee at `src/main.rs:91` lives until that `match` ends at `src/main.rs:105`. So the second `lock()`, at `src/main.rs:93` (live) or `src/main.rs:101` (stored), runs on the same thread while the lock is held, and std's `Mutex` then deadlocks or panics. As written, therefore, no forward to a known destination is delivered or stored. `Route`, `Server.HandleForward`, `Server.Dispatch` and the live deliveries in `Scenario.AliceAndBob` describe what the code would decide if that re-lock returned. A forward to an unknown destination takes no second lock and is dropped as modelled. `HandleActive` is not affected: the guard in its `if` condition at `src/main.rs:71` is dropped before the second `lock()`.
- Wall-clock `Instant` values: only their role as the heartbeat timestamp is modelled, as a `nat`.
- `println!` output.
- `Database.Database.GetMailsFor`: promises the multiset of the fetched mails, not their order, because the query has no `ORDER BY`. In the model the rows happen to be visited in table order.
- `Database.Database.GetMailsFor`: its completeness holds only when no error occurs while stepping through the rows. The `Err(err) => {}` arm at `src/database.rs:75` swallows every error the row iterator yields. That covers the decode failures modelled here. It would also cover an engine error while stepping to the next row, after which the iteration ends, so the source returns `Ok` with only the mails read so far. The model does not represent that error, so its `Ok` result is always complete.
- `Database.Database.GetMailsFor`: assumes the `MAIL` schema is `(dest TEXT, payload TEXT)`, in that order. `SELECT *` with `row.get(0)` as destination and `row.get(1)` as payload (`src/database.rs:64-70`) relies on it, and the schema is not part of the source.
