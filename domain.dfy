/**
 * The domain module of the chat coordinator: the value types (payloads,
 * users, clients), the room with its in-place membership and message
 * updates, the room iterator, and the tagged unions that classify every
 * outcome of the coordinator's operations.
 *
 * Identifiers (UUIDs), timestamps and the password hash are produced by
 * randomness, the clock and a foreign hashing library; every operation
 * here receives them as parameters.
 */
module Domain {
  import opened Wrappers

  /** A UUID, treated as an opaque identifier. */
  type Uuid = nat

  /** A duration since the epoch, as returned by the clock. */
  type Duration = nat

  /** The live delivery address of a connected client: an opaque handle. */
  datatype Address = Address(handle: nat)

  /** Rust's `i32`, the type of a room's capacity. */
  newtype I32 = x: int | -0x8000_0000 <= x < 0x8000_0000

  /** The message returned when a room is created with capacity zero. */
  const CapacityMessage: string := "The capacity must be greater than 0!"

  // ---------------------------------------------------------------------
  // Outcome classifications
  // ---------------------------------------------------------------------

  datatype RefusedReason = BADFORMAT | EMPTY

  /** The name of the offending input field. */
  type Field = string

  datatype RegistrationStatus =
    | CREATED
    | REFUSED(reason: RefusedReason, field: Field)
    | FAILED(failure: FailureReason)

  datatype FailureReason = ACCESSWRITEERROR | COLLISION | ACCESSREADERROR

  datatype RoomRejection = UnknownRoom | UnknownUser | Reject(reason: RefusedReason)

  datatype RoomError =
    | UNACCEPTABLE(message: string)
    | REFUSED(rejection: RoomRejection)
    | INTERNALERROR(failure: FailureReason)

  datatype RoomCreationStatus = CREATED | ERROR(error: RoomError)

  datatype RoomCreation = RoomCreation(status: RoomCreationStatus, handle: Option<Uuid>)

  datatype SignalCode = Connect | Disconnect | Pending

  datatype AbortReason =
    | Internal(failure: FailureReason)
    | External(refusal: RefusedReason)
    | UNACCEPTABLE(rejection: RoomRejection)

  datatype ConnectionStatus = Connected | Aborted(reason: AbortReason) | Disconnected

  datatype SignalOutput = SignalOutput(status: ConnectionStatus, signaledAt: Duration)

  datatype JoinOutput = Success | Rejected(rejection: RoomRejection) | Failed(failure: FailureReason)

  datatype LoginFailure = Internal(failure: FailureReason) | UserFailure

  datatype LoginStatus = Passed | Failed(failure: LoginFailure)

  datatype BearerFailure =
    | InvalidToken
    | EmptyHeader
    | ExpiredJwt
    | EmptyCookie
    | ParsingError
    | BadJwtComponent

  datatype AuthStatus = Success | Fail(failure: BearerFailure)

  // ---------------------------------------------------------------------
  // Payloads, users and clients
  // ---------------------------------------------------------------------

  /** One chat message with the time it was created. */
  datatype Payload = Payload(message: string, date: Duration)

  /** `Payload::new`: the text of the message, stamped with the clock reading `now`. */
  function NewPayload(msg: string, now: Duration): (p: Payload)
    ensures p.message == msg && p.date == now
  {
    Payload(msg, now)
  }

  /** A registered user; `pwd` holds the password hash, never the password. */
  datatype User = User(uid: Uuid, username: string, createdAt: Duration, tokenVersion: nat, pwd: string)

  /**
   * `User::new`. `hash` stands for `pbkdf2_simple(pwd, 20)` with the salt it
   * draws for this call; its `None` is the error on which the source's
   * `unwrap` panics, so no user is built. `uid` and `now` are the fresh
   * UUID and the clock reading.
   */
  function NewUser(username: string, pwd: string, hash: string -> Option<string>, uid: Uuid, now: Duration): (r: Option<User>)
    ensures r.Some? <==> hash(pwd).Some?
    ensures r.Some? ==> && r.value.username == username
                        && r.value.uid == uid
                        && r.value.createdAt == now
                        && r.value.tokenVersion == 0
                        && r.value.pwd == hash(pwd).value
  {
    match hash(pwd)
    case None => None
    case Some(digest) => Some(User(uid, username, now, 0, digest))
  }

  /** A session of one user; `address` is present only while connected. */
  datatype Client = Client(clientId: Uuid, address: Option<Address>, user: User)

  /** `Client::new`: a fresh client with id `clientId`, not yet connected. */
  function NewClient(user: User, clientId: Uuid): (c: Client)
    ensures c.clientId == clientId && c.address == None && c.user == user
  {
    Client(clientId, None, user)
  }

  // ---------------------------------------------------------------------
  // Rooms
  // ---------------------------------------------------------------------

  /**
   * Why a room with this name and capacity is not created, or `None` when it is.
   * An absent capacity stands for -1, so only an explicit zero is refused;
   * the name is examined before the capacity.
   */
  function CreateRejection(name: string, cap: Option<I32>): (e: Option<RoomError>)
    ensures e == None <==> |name| > 0 && cap != Some(0)
    ensures |name| == 0 ==> e == Some(RoomError.REFUSED(Reject(EMPTY)))
    ensures |name| > 0 && cap == Some(0) ==> e == Some(RoomError.UNACCEPTABLE(CapacityMessage))
  {
    var num: int := if cap.Some? then cap.value as int else -1;
    if |name| == 0 then Some(RoomError.REFUSED(Reject(EMPTY)))
    else if num == 0 then Some(RoomError.UNACCEPTABLE(CapacityMessage))
    else None
  }

  /** A revised message storage after `sender` has sent `payload`: one entry per sender. */
  function Stored(storage: map<Uuid, Payload>, payload: Payload, sender: Uuid): (r: map<Uuid, Payload>)
    ensures sender in r && r[sender] == payload
    ensures r.Keys == storage.Keys + {sender}
    ensures forall s :: s in storage && s != sender ==> r[s] == storage[s]
  {
    storage[sender := payload]
  }

  class Room {
    var name: string
    var roomId: Uuid
    var clientIds: seq<Uuid>
    var capacity: Option<I32>
    var messageStorage: map<Uuid, Payload>
    var participants: nat
    var admin: Uuid

    /**
     * What every room built by `Create` satisfies and the two updates keep.
     * The member count is set to 1 at creation and no operation changes it,
     * so it stops equalling the number of members after the first append.
     */
    ghost predicate Valid()
      reads this
    {
      && |name| > 0
      && capacity != Some(0)
      && |clientIds| > 0
      && clientIds[0] == admin
      && participants == 1
    }

    /** The struct literal at the end of `Room::create`. */
    constructor (name: string, capacity: Option<I32>, admin: Uuid, roomId: Uuid)
      ensures this.name == name && this.capacity == capacity && this.admin == admin
      ensures this.roomId == roomId
      ensures clientIds == [admin] && participants == 1 && messageStorage == map[]
    {
      this.name := name;
      this.capacity := capacity;
      this.messageStorage := map[];
      this.roomId := roomId;
      this.clientIds := [admin];
      this.participants := 1;
      this.admin := admin;
    }

    /**
     * `Room::create`: refuses an empty name, then a zero capacity;
     * otherwise a room whose only member is `admin`. `roomId` is the fresh UUID.
     */
    static method Create(name: string, cap: Option<I32>, admin: Uuid, roomId: Uuid) returns (r: Result<Room, RoomError>)
      ensures r.Err? <==> CreateRejection(name, cap).Some?
      ensures r.Err? ==> r.error == CreateRejection(name, cap).value
      ensures r.Ok? ==> && fresh(r.value)
                        && r.value.Valid()
                        && r.value.name == name
                        && r.value.capacity == cap
                        && r.value.admin == admin
                        && r.value.roomId == roomId
                        && r.value.clientIds == [admin]
                        && r.value.participants == 1
                        && r.value.messageStorage == map[]
    {
      var rejection := CreateRejection(name, cap);
      if rejection.Some? {
        return Err(rejection.value);
      }
      var room := new Room(name, cap, admin, roomId);
      return Ok(room);
    }

    /** `append_client`: pushes the id, with no duplicate or capacity check and no count update. */
    method AppendClient(newClient: Uuid)
      modifies this
      ensures clientIds == old(clientIds) + [newClient]
      ensures name == old(name) && roomId == old(roomId) && capacity == old(capacity)
      ensures messageStorage == old(messageStorage)
      ensures participants == old(participants) && admin == old(admin)
      ensures old(Valid()) ==> Valid()
    {
      clientIds := clientIds + [newClient];
    }

    /** `append_message`: records `payload` as the latest message of `sender`, replacing any earlier one. */
    method AppendMessage(payload: Payload, sender: Uuid)
      modifies this
      ensures messageStorage == Stored(old(messageStorage), payload, sender)
      ensures name == old(name) && roomId == old(roomId) && capacity == old(capacity)
      ensures clientIds == old(clientIds)
      ensures participants == old(participants) && admin == old(admin)
      ensures old(Valid()) ==> Valid()
    {
      messageStorage := Stored(messageStorage, payload, sender);
    }

    /** `iter`: an iterator over a snapshot of the member list. */
    method Iter() returns (it: RoomIter)
      ensures fresh(it) && it.iter == clientIds
    {
      it := new RoomIter(clientIds);
    }
  }

  /** `RoomIter`: holds the snapshot of member ids taken by `Room::iter`. */
  class RoomIter {
    var iter: seq<Uuid>

    constructor (ids: seq<Uuid>)
      ensures iter == ids
    {
      iter := ids;
    }

    /**
     * `RoomIter::next`: looks at the first element of the snapshot and never
     * removes it, so every call returns the same answer.
     */
    method Next() returns (r: Option<Uuid>)
      ensures r.None? <==> |iter| == 0
      ensures r.Some? ==> r.value == iter[0]
    {
      if |iter| == 0 {
        r := None;
      } else {
        r := Some(iter[0]);
      }
    }
  }
}
