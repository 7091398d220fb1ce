/**
 * Properties of the domain module that relate several calls: the
 * latest-message-per-sender storage of a room, the iterator that never
 * advances, and membership that grows without any capacity check.
 */
module DomainProperties {
  import opened Wrappers
  import opened Domain

  /** One `append_message` call: the payload and its sender. */
  datatype Sent = Sent(payload: Payload, sender: Uuid)

  /** The message storage after the calls in `sent`, made in order, starting from `storage`. */
  function StoredAll(storage: map<Uuid, Payload>, sent: seq<Sent>): map<Uuid, Payload>
  {
    if |sent| == 0 then storage
    else
      var last := sent[|sent| - 1];
      Stored(StoredAll(storage, sent[..|sent| - 1]), last.payload, last.sender)
  }

  /** One more `append_message` call extends the history by one step. */
  lemma StoredAllStep(storage: map<Uuid, Payload>, sent: seq<Sent>, payload: Payload, sender: Uuid)
    ensures StoredAll(storage, sent + [Sent(payload, sender)]) == Stored(StoredAll(storage, sent), payload, sender)
  {
  }

  /** A second message from the same sender replaces the first, whatever it was. */
  lemma LaterMessageOverwrites(storage: map<Uuid, Payload>, first: Payload, second: Payload, sender: Uuid)
    ensures Stored(Stored(storage, first, sender), second, sender) == Stored(storage, second, sender)
  {
  }

  /**
   * The storage keeps exactly one message per sender, the most recent one:
   * the message at `i` is what is stored for its sender when no later
   * message came from the same sender.
   */
  lemma {:induction false} LatestPerSender(storage: map<Uuid, Payload>, sent: seq<Sent>, i: nat)
    requires i < |sent|
    requires forall j :: i < j < |sent| ==> sent[j].sender != sent[i].sender
    ensures sent[i].sender in StoredAll(storage, sent)
    ensures StoredAll(storage, sent)[sent[i].sender] == sent[i].payload
  {
    if i < |sent| - 1 {
      LatestPerSender(storage, sent[..|sent| - 1], i);
    }
  }

  /** A sender with no message in `sent` keeps the entry it had before, or still has none. */
  lemma {:induction false} SilentSenderUnchanged(storage: map<Uuid, Payload>, sent: seq<Sent>, s: Uuid)
    requires forall j :: 0 <= j < |sent| ==> sent[j].sender != s
    ensures s in StoredAll(storage, sent) <==> s in storage
    ensures s in storage ==> StoredAll(storage, sent)[s] == storage[s]
  {
    if |sent| > 0 {
      SilentSenderUnchanged(storage, sent[..|sent| - 1], s);
    }
  }

  /** The senders that have a stored message are those of the storage and those in `sent`. */
  lemma {:induction false} StoredSenders(storage: map<Uuid, Payload>, sent: seq<Sent>)
    ensures StoredAll(storage, sent).Keys == storage.Keys + set j | 0 <= j < |sent| :: sent[j].sender
  {
    if |sent| > 0 {
      var init := sent[..|sent| - 1];
      StoredSenders(storage, init);
      assert (set j | 0 <= j < |sent| :: sent[j].sender)
          == (set j | 0 <= j < |init| :: init[j].sender) + {sent[|sent| - 1].sender};
    }
  }

  /**
   * `it.take(k).collect()`: the standard iterator adaptor, which calls `next`
   * until it has `k` items or sees `None`. Because `next` never advances, a
   * non-empty snapshot yields its first id `k` times and no other id.
   */
  method Take(it: RoomIter, k: nat) returns (items: seq<Uuid>)
    ensures |it.iter| == 0 ==> items == []
    ensures |it.iter| > 0 ==> |items| == k && forall j :: 0 <= j < k ==> items[j] == it.iter[0]
  {
    items := [];
    var i := 0;
    while i < k
      invariant 0 <= i <= k
      invariant |it.iter| == 0 ==> items == []
      invariant |it.iter| > 0 ==> |items| == i && forall j :: 0 <= j < i ==> items[j] == it.iter[0]
    {
      var x := it.Next();
      if x.None? {
        break;
      }
      items := items + [x.value];
      i := i + 1;
    }
  }

  /**
   * A room of capacity 2 created by `a`, to which `b` and then `c` are
   * appended: both appends go through, the room ends with three members
   * over its capacity, and its member count still reads 1.
   */
  method CapacityNotEnforced(a: Uuid, b: Uuid, c: Uuid, roomId: Uuid) returns (members: seq<Uuid>, participants: nat)
    ensures members == [a, b, c]
    ensures |members| > 2 && participants == 1
  {
    var created := Room.Create("general", Some(2), a, roomId);
    if created.Ok? {
      var room := created.value;
      room.AppendClient(b);
      room.AppendClient(c);
      members, participants := room.clientIds, room.participants;
    } else {
      assert false;
    }
  }
}
