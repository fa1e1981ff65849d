/**
 * The socket side of the server: the presence registry `onlineUsers` (name to socket id),
 * the per-socket `username` field, the message log, and the three event handlers
 * `join`, `privateMessage` and `disconnect`. Each handler runs to completion as one step;
 * an emit appends an event to the outbox of each socket it reaches.
 */
module ServerSockets {
  import opened Util
  import opened Strings
  import opened MessageSchema

  /** A connection's id; the model hands out fresh ones from a counter. */
  type SocketId = nat

  /** What the server sends to a socket. */
  datatype ServerEvent = OnlineUsers(names: seq<string>) | NewMessage(msg: Message)

  /** The `privateMessage` payload after destructuring; `None` for a missing field. */
  datatype Payload = Payload(sender: Option<string>, receiver: Option<string>, text: Option<string>)

  /** Everything each socket has been sent, oldest first. */
  type Outboxes = map<SocketId, seq<ServerEvent>>

  /** The handler builds the document from the three payload fields and leaves `timestamp` to its default. */
  function AsInput(p: Payload): MessageInput {
    MessageInput(p.sender, p.receiver, p.text, None)
  }

  /** `io.emit(ev)`: every connected socket receives `ev`, no other outbox changes. */
  function Broadcast(outbox: Outboxes, live: set<SocketId>, ev: ServerEvent): (r: Outboxes)
    requires live <= outbox.Keys
    ensures r.Keys == outbox.Keys
    ensures forall t :: t in live ==> r[t] == outbox[t] + [ev]
    ensures forall t :: t in outbox && t !in live ==> r[t] == outbox[t]
  {
    map t | t in outbox :: if t in live then outbox[t] + [ev] else outbox[t]
  }

  /** `io.to(target).emit(ev)`: the room of a socket id reaches that socket while it is connected, else no one. */
  function EmitTo(outbox: Outboxes, live: set<SocketId>, target: SocketId, ev: ServerEvent): (r: Outboxes)
    requires live <= outbox.Keys
    ensures r.Keys == outbox.Keys
    ensures target in live ==> r[target] == outbox[target] + [ev]
    ensures forall t :: t in outbox && (t != target || t !in live) ==> r[t] == outbox[t]
  {
    if target in live then outbox[target := outbox[target] + [ev]] else outbox
  }

  /**
   * Delivery of a saved message: first to the socket `online` registers under `receiverKey`
   * (if there is one), then back to the sending socket `from`.
   */
  function Deliver(outbox: Outboxes, live: set<SocketId>, online: map<string, SocketId>,
                   receiverKey: string, from: SocketId, ev: ServerEvent): (r: Outboxes)
    requires live <= outbox.Keys && from in live
    ensures r.Keys == outbox.Keys
    ensures r[from] == outbox[from] + (if receiverKey in online && online[receiverKey] == from then [ev, ev] else [ev])
    ensures forall t :: t in outbox && t != from ==>
              r[t] == if receiverKey in online && online[receiverKey] == t && t in live then outbox[t] + [ev] else outbox[t]
  {
    var afterReceiver := if receiverKey in online then EmitTo(outbox, live, online[receiverKey], ev) else outbox;
    EmitTo(afterReceiver, live, from, ev)
  }

  /** The order of `Object.keys` after `obj[k] = v`: a new key goes last, an existing one keeps its place. */
  function AddKey(order: seq<string>, k: string): (r: seq<string>)
    ensures forall x :: x in r <==> x in order || x == k
    ensures NoDup(order) ==> NoDup(r)
    ensures |order| <= |r| && r[..|order|] == order
  {
    if k in order then order else order + [k]
  }

  /** The order of `Object.keys` after `delete obj[k]`: the other keys, in their order. */
  function RemoveKey(order: seq<string>, k: string): (r: seq<string>)
    ensures forall x :: x in r <==> x in order && x != k
    ensures NoDup(order) ==> NoDup(r)
    ensures IsSubsequence(r, order)
  {
    if order == [] then []
    else
      var rest := RemoveKey(order[1..], k);
      if order[0] == k then
        assert rest != [] ==> rest[0] in rest;
        rest
      else
        assert NoDup(order) ==> order[0] !in order[1..];
        [order[0]] + rest
  }

  /** Every connected or named socket has an outbox, and every socket id was handed out. */
  ghost predicate SocketsValid(live: set<SocketId>, usernameOf: map<SocketId, string>, outbox: Outboxes, nextSocket: SocketId) {
    && live <= outbox.Keys
    && usernameOf.Keys <= outbox.Keys
    && (forall t :: t in outbox ==> t < nextSocket)
  }

  /** The key order lists each online name exactly once. */
  ghost predicate KeysValid(keyOrder: seq<string>, onlineUsers: map<string, SocketId>) {
    && NoDup(keyOrder)
    && (forall k :: k in keyOrder <==> k in onlineUsers)
  }

  /** Saved messages are well formed and carry ascending ids below the next one to hand out. */
  ghost predicate LogValid(log: seq<Message>, nextId: MessageId) {
    && (forall i :: 0 <= i < |log| ==> log[i].id < nextId && WellFormed(log[i]))
    && (forall i, j :: 0 <= i < j < |log| ==> log[i].id < log[j].id)
  }

  class ChatServer {
    /** `onlineUsers`: the last socket that joined under each name. */
    var onlineUsers: map<string, SocketId>
    /** The keys of `onlineUsers` in property order, as `Object.keys` lists them. */
    var keyOrder: seq<string>
    /** `socket.username` of each socket that has joined. */
    var usernameOf: map<SocketId, string>
    /** Sockets that are still connected. */
    var live: set<SocketId>
    /** What has been emitted to each socket that ever connected. */
    var outbox: Outboxes
    /** The persisted messages, in save order. */
    var log: seq<Message>
    /** The next socket id and the next document id to hand out. */
    var nextSocket: SocketId
    var nextId: MessageId

    ghost predicate Valid()
      reads this
    {
      && SocketsValid(live, usernameOf, outbox, nextSocket)
      && KeysValid(keyOrder, onlineUsers)
      && LogValid(log, nextId)
    }

    /** `Object.keys(onlineUsers)`: each online name once, in property order. */
    function OnlineKeys(): (r: seq<string>)
      reads this
      requires Valid()
      ensures NoDup(r)
      ensures forall k :: k in r <==> k in onlineUsers
    {
      keyOrder
    }

    constructor ()
      ensures Valid()
      ensures onlineUsers == map[] && keyOrder == [] && usernameOf == map[]
      ensures live == {} && outbox == map[] && log == []
    {
      onlineUsers, keyOrder, usernameOf := map[], [], map[];
      live, outbox, log := {}, map[], [];
      nextSocket, nextId := 0, 0;
    }

    /** A new transport connection: a fresh socket with no username and an empty outbox. */
    method Connect() returns (s: SocketId)
      requires Valid()
      modifies this
      ensures Valid()
      ensures s !in old(outbox) && s !in old(usernameOf)
      ensures live == old(live) + {s} && outbox == old(outbox)[s := []]
      ensures onlineUsers == old(onlineUsers) && keyOrder == old(keyOrder) && usernameOf == old(usernameOf)
      ensures log == old(log) && nextId == old(nextId)
    {
      s := nextSocket;
      nextSocket := nextSocket + 1;
      live := live + {s};
      outbox := outbox[s := []];
    }

    /** `join`: bind the name to the socket, register it (last join wins) and broadcast the online names. */
    method Join(s: SocketId, username: string)
      requires Valid() && s in live
      modifies this
      ensures Valid()
      ensures live == old(live) && log == old(log) && nextSocket == old(nextSocket) && nextId == old(nextId)
      ensures usernameOf == old(usernameOf)[s := username]
      ensures onlineUsers == old(onlineUsers)[username := s]
      ensures keyOrder == AddKey(old(keyOrder), username)
      ensures outbox == Broadcast(old(outbox), live, OnlineUsers(OnlineKeys()))
    {
      usernameOf := usernameOf[s := username];
      keyOrder := AddKey(keyOrder, username);
      onlineUsers := onlineUsers[username := s];
      outbox := Broadcast(outbox, live, OnlineUsers(keyOrder));
    }

    /**
     * `privateMessage`: build and save the document; only once the save has succeeded, look up
     * the payload's receiver (untrimmed) in `onlineUsers`, emit to that socket, then to the sender's.
     * A missing payload, a validation error or a failed write ends the handler with nothing emitted.
     */
    method PrivateMessage(s: SocketId, data: Option<Payload>, now: int, writeOk: bool) returns (saved: Option<Message>)
      requires Valid() && s in live
      modifies this
      ensures Valid()
      ensures onlineUsers == old(onlineUsers) && keyOrder == old(keyOrder) && usernameOf == old(usernameOf)
      ensures live == old(live) && nextSocket == old(nextSocket)
      ensures nextId == if data.Some? then old(nextId) + 1 else old(nextId)
      ensures saved.Some? <==> data.Some? && AllSatisfied(AsInput(data.value)) && writeOk
      ensures saved.Some? ==> Validate(AsInput(data.value), old(nextId), now) == Success(saved.value)
      ensures saved.Some? ==> log == old(log) + [saved.value]
      ensures saved.Some? ==> outbox == Deliver(old(outbox), live, onlineUsers, data.value.receiver.value, s, NewMessage(saved.value))
      ensures saved.None? ==> log == old(log) && outbox == old(outbox)
    {
      saved := None;
      if data.Some? {
        var input := AsInput(data.value);
        var id := nextId;
        nextId := nextId + 1;
        var built := Validate(input, id, now);
        if built.Success? && writeOk {
          var m := built.value;
          var receiverKey := data.value.receiver.value;
          log := log + [m];
          outbox := Deliver(outbox, live, onlineUsers, receiverKey, s, NewMessage(m));
          saved := Some(m);
        }
      }
    }

    /**
     * `disconnect`: the socket is gone; if it carries a (truthy) username, that name's entry is
     * deleted, whichever socket it points at now, and the online names are broadcast to the rest.
     */
    method Disconnect(s: SocketId)
      requires Valid() && s in live
      modifies this
      ensures Valid()
      ensures live == old(live) - {s}
      ensures s in old(usernameOf) && old(usernameOf)[s] != "" ==>
                && onlineUsers == old(onlineUsers) - {old(usernameOf)[s]}
                && keyOrder == RemoveKey(old(keyOrder), old(usernameOf)[s])
                && outbox == Broadcast(old(outbox), live, OnlineUsers(OnlineKeys()))
      ensures !(s in old(usernameOf) && old(usernameOf)[s] != "") ==>
                onlineUsers == old(onlineUsers) && keyOrder == old(keyOrder) && outbox == old(outbox)
      ensures usernameOf == old(usernameOf) && log == old(log)
      ensures nextSocket == old(nextSocket) && nextId == old(nextId)
    {
      live := live - {s};
      if s in usernameOf && usernameOf[s] != "" {
        var name := usernameOf[s];
        onlineUsers := onlineUsers - {name};
        keyOrder := RemoveKey(keyOrder, name);
        outbox := Broadcast(outbox, live, OnlineUsers(keyOrder));
      }
    }
  }
}
