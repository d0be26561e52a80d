# Client/server message exchange, modelled in Dafny

This project models the in-process messaging protocol in `src/main.rs`.
A server keeps a table from peer address to connection state. Each
connection is `Open`, `Halted` or `Closed`. An open or halted connection
holds a client. A client has a name, a count of the Posts it has accepted,
a Post limit, and the server address it is bound to, which is set at most
once. Three kinds of message are routed to clients: Handshake, Post and Get.

Files and modules:

- `comms.dfy` (`Comms`): the `Option` and `Result` types. The source's
  string errors become the `Error` datatype, and `Text` renders the
  wording the source fixes.
- `decimal.dfy` (`Decimal`): `Show`, the decimal text of a count, as
  `to_string` writes it. `Value` reads it back.
- `messages.dfy` (`Messages`): `MessageType.Header`, `Message.Content`,
  and `ParseContent`, the reader of the display text.
- `client.dfy` (`Clients`): the `Client` value, `New`, and `Receive`.
  `Receive` returns the answer together with the updated client.
- `server.dfy` (`Servers`): the `Connection` states, and the table
  operations as functions on table values (`OpenIn`, `SendIn`,
  `CloseAllIn`, `IsOpenIn`, `CountHaltedIn`). It also holds the class
  `Server`, whose `Open`, `Send` and `CloseAll` update its `connections`
  map in place. Each method is proved to do what the table function of
  the same name specifies. `CloseAll` overwrites the entries one at a
  time in a loop. `IsOpen` and `CountHalted` read the map. The unit tests
  of the source are replayed as methods on a `Server` object.

Most method bodies in `src/main.rs` are `todo!()`. The model follows the
contract fixed by the comments at `src/main.rs:18-28`, `56-58`, `67-70`,
`76-77`, `82` and `101-105`, and by the unit tests at `src/main.rs:128-232`.
Where those leave a choice, the model decides as follows:

- A Post is refused once `post_count` has reached `limit`, tested as
  `postCount >= limit`. For any client within its limit this is the same
  as `post_count == limit`. Every client the model creates stays within
  its limit.
- `open` sends the server's Handshake to the given client. If the client
  refuses it (because it is already bound), that error is returned and
  nothing is inserted.
- `send` to an address that is absent fails with `NoConnection`. `send`
  through a `Closed` connection fails with `ClosedConnection`. The source
  fixes no wording for either, so `Text` is not defined for them.

## Model

| member | source | states |
|---|---|---|
| `Comms.Text` | src/main.rs:149-210 | the four error sentences the unit tests fix (lines 149, 164, 185 and 210): the capacity, "already exists" and halted sentences have a fixed length around their argument (client name or address), which sits at a fixed offset; fixed characters tell the four kinds apart |
| `Comms.TextIdentifiesError` | src/main.rs:3 | the source reports errors as strings; two equal error texts come from the same error (a handshake conflict is excluded from comparison with itself) |
| `Decimal.Show` | src/main.rs:104-105 | the Get answer is non-empty decimal digits, with no leading zero except for 0, and 0 is `"0"` |
| `Decimal.ValueOfShow` | src/main.rs:104-105 | the Get answer reads back as the number of Posts received |
| `Decimal.ShowInjective` | src/main.rs:104-105 | different counts give different answers |
| `Messages.MessageType.Header` | src/main.rs:12-16 | a header is a bracketed token without a newline |
| `Messages.HeaderTokens` | src/main.rs:129-133 | the headers are exactly `[HANDSHAKE]`, `[POST]` and `[GET]`, and each maps back to its type |
| `Messages.Message.Content` | src/main.rs:34-37 | the display text is the header, one newline, then the load |
| `Messages.ContentRoundTrip` | src/main.rs:34-37 | type and load are recovered from the display text |
| `Clients.New` | src/main.rs:97-99 | a new client keeps its name and limit, has no Posts and is not bound |
| `Clients.Receive` | src/main.rs:101-110 | name and limit never change; a refused message leaves the client as it was; only an accepted Post moves the count, by one; a binding once made is kept; the limit is never exceeded |
| `Clients.HandshakeBindsOnce` | src/main.rs:140-149 | the first Handshake binds the client to its load and answers nothing; a later one is refused with the exact conflict text naming the bound server, and nothing is rebound |
| `Clients.GetReportsCount` | src/main.rs:151-154 | Get always succeeds, changes nothing, and answers exactly `Show` of the count, digits that read back as the count |
| `Clients.PostCapacity` | src/main.rs:156-164 | a Post is accepted exactly while the count is below the limit, and then adds one; at the limit it is refused with the exact capacity text |
| `Clients.DeliverAcceptsUpToLimit` | src/main.rs:101-103 | over any message sequence, the count ends at the number of Posts capped by the limit, and the binding is the old one or else the first Handshake's |
| `Clients.ClientExchange` | src/main.rs:136-167 | the client unit test: bind, refuse a second Handshake, answer "0", accept a Post, refuse the next with the exact texts |
| `Servers.IsOpenIn` | src/main.rs:76-80 | a connection is open exactly when a Get sent to it is routed to its client and answered |
| `Servers.CountHaltedIn` | src/main.rs:82-85 | the halted count is at most the table size, and is zero exactly when no entry is halted |
| `Servers.OpenIn` | src/main.rs:56-61 | an address already present, in any state, is refused with `AlreadyExists` and the table kept; a new address with an already bound client is refused with that client's handshake conflict, naming the server it is bound to; `open` succeeds exactly for a new address and an unbound client, and then stores that client as open, bound to the server's address |
| `Servers.SendIn` | src/main.rs:67-74 | keys and every other entry are kept; sending elsewhere than to an open connection fails and changes nothing (halted: `HaltedConnection`); through an open one the client's answer is returned unchanged, and on error the entry becomes halted with the client kept |
| `Servers.CloseAllIn` | src/main.rs:63-65 | same keys, every entry closed |
| `Servers.OperationsFollowLifecycle` | src/main.rs:40-44 | no operation removes an entry; a halted connection only stays halted or closes, and a closed one stays closed |
| `Servers.OperationsKeepInvariants` | src/main.rs:56-59 | `open`, `send` and `close_all` keep every held client bound to the server's address; `send` and `close_all` keep every held client within its limit, and `open` does so when the client it is given is within its limit |
| `Servers.HandshakeThroughServerHalts` | src/main.rs:67-71 | a Handshake sent through an open connection is refused by the bound client, naming the server, and halts that connection |
| `Servers.HaltedStaysHalted` | src/main.rs:207-210 | after a client error, every later send to that address fails with the exact halted text and changes nothing |
| `Servers.NoReopenAfterCloseAll` | src/main.rs:56-65 | after `close_all`, `open` on an address that was present fails with the exact "already exists" text |
| `Servers.IsOpenTracksLifecycle` | src/main.rs:76-80 | `is_open` is false for an absent address, true after a successful `open` or `send`, false after a refused `send`, and false everywhere after `close_all` |
| `Servers.OpenKeepsHaltedCount` | src/main.rs:56-61 | `open` does not change the halted count |
| `Servers.SendHaltedCount` | src/main.rs:67-71 | a send adds one to the halted count exactly when it halts an open connection |
| `Servers.CloseAllSettles` | src/main.rs:63-65 | after `close_all` nothing is halted, and a second `close_all` changes nothing |
| `Servers.Server.constructor` | src/main.rs:52-54 | a new server has the given address and an empty table |
| `Servers.Server.IsOpen` | src/main.rs:76-80 | true exactly when the address is in the table and its connection is open |
| `Servers.Server.CountHalted` | src/main.rs:82-85 | the number of halted entries in the table, at most its size |
| `Servers.Server.Open` | src/main.rs:56-61 | updates the table in place as `OpenIn` specifies, keeping every held client bound to the server |
| `Servers.Server.Send` | src/main.rs:67-74 | updates the table in place as `SendIn` specifies, keeping every held client bound to the server |
| `Servers.Server.CloseAll` | src/main.rs:63-65 | overwrites every entry with `Closed`, one at a time, as `CloseAllIn` specifies |
| `Servers.OpenTwiceExample` | src/main.rs:170-188 | the `open` unit test: the first `open` succeeds and binds the client to "localhost"; the second fails with the exact text |
| `Servers.SendUntilHaltedExample` | src/main.rs:191-213 | the `send` unit test: Get answers "0", a Post is accepted, the next is refused with the client's capacity error, and then the connection answers with the exact halted text |
| `Servers.OpenFive` | src/main.rs:217-222 | opening five distinct addresses gives five open connections, each bound to the server |
| `Servers.PostPastLimit` | src/main.rs:224-227 | two Posts to a fresh limit-1 client halt its connection and add one to the halted count |
| `Servers.CountHaltedExample` | src/main.rs:216-232 | the `count_halted` unit test: two of five connections halted, the other three still open |

## Left out

- The diagnostic line that `receive` writes to standard error (`src/main.rs:107`) is output, not state, and is not modelled.
- The `main` driver (`src/main.rs:113-122`) is a demonstration that turns the first error into a process exit. It is not modelled.
- `HashMap` hashing and iteration order are not modelled. The table is a Dafny `map`, and `CloseAll` closes the entries in an arbitrary order.
- `u32` overflow is not modelled. `post_count` and `limit` are unbounded naturals, and every client the model creates keeps `post_count <= limit`.
- No wording is given to the errors for `send` to an absent or `Closed` address. The source leaves it open, so `Text` is not defined for `NoConnection` and `ClosedConnection`.
- `Clients.Receive`: `Client::receive` updates the client in place through `&mut self`. Here it is a function that returns the updated client with the answer, because a client lives as a value inside a table entry.
- Rust ownership, moves and cloning are not modelled.
