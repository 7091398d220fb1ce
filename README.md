# Chat coordinator domain model in Dafny

This project models the domain module of a real-time chat coordinator (`src/domain/mod.rs`).
The module holds the value types the coordinator passes around: a message payload, a user, a client session and a room.
It also holds the room's in-place updates, the room's member iterator, and the tagged unions that classify each outcome.
Those outcomes are registration, room creation, joining, presence signals, login and bearer-token checks.

- `wrappers.dfy`, module `Wrappers`: Rust's `Option` and `Result`.
- `domain.dfy`, module `Domain`: the types, the outcome enums, the constructors `Payload::new`, `User::new` and `Client::new`, and the `Room` and `RoomIter` classes.
- `properties.dfy`, module `DomainProperties`: properties that relate several calls.

A `Room` is a class because `append_client` and `append_message` change it in place.
`Room.Create` validates its input through the pure function `CreateRejection` and allocates the room.
`RoomIter.Next` changes nothing and returns the first id of its snapshot.

UUIDs are `nat`s. Timestamps are `nat`s. The Rust `i32` capacity is the newtype `I32`.
Fresh UUIDs, clock readings and the output of the password-hashing call are parameters.

## Behaviour of the code as written

The design describes behaviour that the code does not have. The model follows the code:

- `append_client` does not increment the member count `participants`, so after one append the count no longer equals the number of members. The count stays 1, which `Room.Valid` records.
- `append_client` performs no capacity check and no duplicate check. `DomainProperties.CapacityNotEnforced` shows a room of capacity 2 ending with three members.
- `RoomIter::next` never advances. A non-empty snapshot yields its first id on every call and never reaches the others. `DomainProperties.Take` states what `take(k)` collects as a result.
- A negative capacity is accepted, as is an absent one (which the code maps to -1). Only an explicit 0 is refused.

## Model

| member | source | states |
|---|---|---|
| `Domain.NewPayload` | src/domain/mod.rs:20-27 | the payload carries the given text and the clock reading taken at creation |
| `Domain.NewUser` | src/domain/mod.rs:47-61 | a user is built exactly when hashing succeeds (the source panics otherwise); the user has the given name, uid and creation time, token version 0, and stores the hash output rather than the password |
| `Domain.NewClient` | src/domain/mod.rs:67-75 | a new client has the given id and user and no delivery address |
| `Domain.CreateRejection` | src/domain/mod.rs:96-111 | room creation is refused iff the name is empty or the capacity is exactly `Some(0)`; an empty name gives `REFUSED(Reject(EMPTY))` whatever the capacity, because the name is checked first; a non-empty name with capacity `Some(0)` gives `UNACCEPTABLE` with the capacity message; `None` and negative capacities are accepted |
| `Domain.Room.constructor` | src/domain/mod.rs:113-123 | the new room has the given name, capacity, admin and id, the admin as its only member, member count 1 and no stored messages |
| `Domain.Room.Create` | src/domain/mod.rs:96-125 | fails exactly with the error `CreateRejection` gives; on success a fresh valid room with the given name, admin and id, the capacity exactly as passed in, members `[admin]`, count 1 and empty storage |
| `Domain.Stored` | src/domain/mod.rs:131-133 | after an insert the sender's entry is the new payload, the set of senders gains only this sender, and every other sender's entry is unchanged |
| `Domain.Room.AppendClient` | src/domain/mod.rs:127-129 | the member list becomes the old list followed by the new id; every other field, the count and capacity included, is unchanged; validity is preserved |
| `Domain.Room.AppendMessage` | src/domain/mod.rs:131-133 | the storage becomes the old storage with the sender's entry replaced by the payload; every other field is unchanged; validity is preserved |
| `Domain.Room.Iter` | src/domain/mod.rs:135-139 | returns a fresh iterator whose snapshot equals the member list; the room is unchanged |
| `Domain.RoomIter.constructor` | src/domain/mod.rs:142-144 | the iterator holds the given snapshot |
| `Domain.RoomIter.Next` | src/domain/mod.rs:146-151 | returns `None` iff the snapshot is empty and otherwise the snapshot's first id; it changes nothing, so repeated calls return the same answer |
| `DomainProperties.LaterMessageOverwrites` | src/domain/mod.rs:131-133 | a second message from a sender leaves the storage as if only the second had been sent |
| `DomainProperties.StoredAllStep` | src/domain/mod.rs:131-133 | the storage after a history of inserts plus one more is that one insert applied to the storage after the history |
| `DomainProperties.LatestPerSender` | src/domain/mod.rs:131-133 | after any sequence of inserts, each sender's stored message is their most recent one |
| `DomainProperties.SilentSenderUnchanged` | src/domain/mod.rs:131-133 | a sender who sent nothing in a sequence of inserts keeps exactly the entry they had, or still has none |
| `DomainProperties.StoredSenders` | src/domain/mod.rs:131-133 | after a sequence of inserts the senders with an entry are the earlier ones plus those who sent in the sequence |
| `DomainProperties.Take` | src/domain/mod.rs:146-151 | `take(k)` on a room iterator collects nothing from an empty snapshot and otherwise `k` copies of the first id, so no later member is ever reached |
| `DomainProperties.CapacityNotEnforced` | src/domain/mod.rs:96-129 | a room created with capacity 2 accepts two more appends, ends with three members and still counts one participant |

## Left out

- `User::comp_pass`: it only forwards to `utility::compare_sha256`, which is not part of this model, so there is nothing of its own to state.
- The password hash: `pbkdf2_simple` and its random salt are foreign. `NewUser` takes the hashing call as a function parameter.
- Randomness and the clock: `Uuid::new_v4` and `timestamp_now` become parameters.
- Delivery addresses: the actor framework's `Recipient<Payload>` is an opaque `Address` handle.
- The message types and their result declarations (`Registration`, `RegisterRes`, `ListUser`, `CreateRoom`, `RoomRetrieval`, `SignalInput`, `JoinInput`, `LoginMessage`, `LoginRes`, `Rtoken`, `ClientMessage`, `AuthorizationError`) are actor-framework plumbing with no logic. Only the outcome enums are kept.
- The `SignalController` trait is an interface with no implementation in this file.
- The `Display` strings and serde derives are formatting only. The one string kept is the capacity message, because creation returns it.
- The `jwt` and `utility` modules are not part of this model.
- Concurrency: the room is modelled as used by one owner at a time.
