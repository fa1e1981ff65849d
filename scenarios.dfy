/**
 * Runs of the server handlers that exhibit the behaviour of the code end to end,
 * each stated as the outcome of a fixed sequence of events.
 */
module Scenarios {
  import opened Util
  import opened Strings
  import opened MessageSchema
  import opened ServerQueries
  import opened ServerSockets

  /** A fresh server on which one user joined from socket `s1`, then joined again from socket `s2`. */
  method Rejoined(name: string) returns (srv: ChatServer, s1: SocketId, s2: SocketId)
    ensures fresh(srv) && srv.Valid()
    ensures s1 != s2 && srv.live == {s1, s2} && s2 in srv.outbox
    ensures srv.usernameOf == map[s1 := name, s2 := name]
    ensures srv.onlineUsers == map[name := s2] && srv.keyOrder == [name]
  {
    srv := new ChatServer();
    s1 := srv.Connect();
    srv.Join(s1, name);
    s2 := srv.Connect();
    srv.Join(s2, name);
  }

  /**
   * A user reconnects (a second socket joins under the same name), then the first socket's
   * disconnect arrives: the name is deleted even though it points at the newer, still
   * connected socket, so the user is shown offline while connected, and the newer socket
   * is told that nobody is online.
   */
  method StaleDisconnectEvictsNewSession(name: string) returns (newSessionConnected: bool, listedOnline: bool, lastBroadcast: seq<string>)
    requires name != ""
    ensures newSessionConnected && !listedOnline
    ensures lastBroadcast == []
  {
    var srv, s1, s2 := Rejoined(name);
    var before := srv.outbox[s2];
    srv.Disconnect(s1);
    assert srv.keyOrder == RemoveKey([name], name) == [];
    newSessionConnected := s2 in srv.live;
    listedOnline := name in srv.onlineUsers;
    assert srv.outbox[s2] == before + [OnlineUsers(srv.OnlineKeys())];
    var received := srv.outbox[s2][|srv.outbox[s2]| - 1];
    lastBroadcast := if received.OnlineUsers? then received.names else [name];
  }

  /** A name joined as the empty string is falsy to the disconnect handler, so it is never removed. */
  method EmptyNameOutlivesItsSocket() returns (socketConnected: bool, listedOnline: bool)
    ensures !socketConnected && listedOnline
  {
    var srv := new ChatServer();
    var s := srv.Connect();
    srv.Join(s, "");
    srv.Disconnect(s);
    socketConnected := s in srv.live;
    listedOnline := "" in srv.onlineUsers;
  }

  /** A fresh server on which two sockets have connected and joined under the names `a` and `b`. */
  method TwoOnline(a: string, b: string) returns (srv: ChatServer, sa: SocketId, sb: SocketId)
    requires a != b
    ensures fresh(srv) && srv.Valid()
    ensures sa != sb && srv.live == {sa, sb} && sa in srv.outbox && sb in srv.outbox
    ensures srv.usernameOf == map[sa := a, sb := b]
    ensures srv.onlineUsers == map[a := sa, b := sb]
    ensures srv.log == []
  {
    srv := new ChatServer();
    sa := srv.Connect();
    srv.Join(sa, a);
    sb := srv.Connect();
    srv.Join(sb, b);
  }

  /**
   * Two users are online under distinct clean names; a message from the first to the second
   * reaches the receiver's socket once and is echoed to the sender once.
   */
  method DeliverToOnline(sender: string, receiver: string, text: string)
      returns (saved: Option<Message>, toReceiver: seq<ServerEvent>, toSender: seq<ServerEvent>)
    requires CleanField(sender) && CleanField(receiver) && CleanField(text) && sender != receiver
    ensures saved.Some? && saved.value.sender == sender && saved.value.receiver == receiver && saved.value.text == text
    ensures toReceiver == [NewMessage(saved.value)] && toSender == toReceiver
  {
    var srv, a, b := TwoOnline(sender, receiver);
    var receiverBefore := srv.outbox[b];
    var senderBefore := srv.outbox[a];
    var payload := Payload(Some(sender), Some(receiver), Some(text));
    assert AllSatisfied(AsInput(payload));
    saved := srv.PrivateMessage(a, Some(payload), 100, true);
    assert srv.outbox[b] == receiverBefore + [NewMessage(saved.value)];
    assert srv.outbox[a] == senderBefore + [NewMessage(saved.value)];
    toReceiver := srv.outbox[b][|receiverBefore|..];
    toSender := srv.outbox[a][|senderBefore|..];
  }

  /**
   * The receiver has disconnected; a message to them is still saved and echoed to the sender,
   * the receiver's socket receives nothing, and the history between the two holds the message.
   */
  method SendToOffline(sender: string, receiver: string, text: string)
      returns (saved: Option<Message>, toReceiver: seq<ServerEvent>, toSender: seq<ServerEvent>, history: seq<Message>)
    requires CleanField(sender) && CleanField(receiver) && CleanField(text) && sender != receiver
    ensures saved.Some? && saved.value.receiver == receiver && saved.value.text == text
    ensures toReceiver == [] && toSender == [NewMessage(saved.value)]
    ensures history == [saved.value]
  {
    var srv, a, b := TwoOnline(sender, receiver);
    srv.Disconnect(b);
    var receiverBefore := srv.outbox[b];
    var senderBefore := srv.outbox[a];
    var payload := Payload(Some(sender), Some(receiver), Some(text));
    assert AllSatisfied(AsInput(payload));
    saved := srv.PrivateMessage(a, Some(payload), 200, true);
    assert srv.outbox[b] == receiverBefore;
    assert srv.outbox[a] == senderBefore + [NewMessage(saved.value)];
    toReceiver := srv.outbox[b][|receiverBefore|..];
    toSender := srv.outbox[a][|senderBefore|..];
    assert srv.log == [saved.value];
    history := History(srv.log, sender, receiver);
    assert Conversation(srv.log, sender, receiver) == [saved.value];
  }

  /**
   * The receiver field carries a leading space: the stored message names the receiver trimmed,
   * but the presence lookup uses the raw field, finds no socket, and only the sender's echo is sent.
   */
  method UntrimmedReceiverMissed(sender: string, receiver: string, text: string)
      returns (saved: Option<Message>, toReceiver: seq<ServerEvent>, toSender: seq<ServerEvent>)
    requires CleanField(sender) && CleanField(receiver) && CleanField(text) && sender != receiver
    ensures saved.Some? && saved.value.receiver == receiver
    ensures toReceiver == [] && toSender == [NewMessage(saved.value)]
  {
    var srv, a, b := TwoOnline(sender, receiver);
    var receiverBefore := srv.outbox[b];
    var senderBefore := srv.outbox[a];
    var padded := " " + receiver;
    TrimLeadingSpace(' ', receiver);
    assert padded != sender && padded != receiver by {
      assert padded[0] == ' ';
    }
    var payload := Payload(Some(sender), Some(padded), Some(text));
    assert AllSatisfied(AsInput(payload));
    saved := srv.PrivateMessage(a, Some(payload), 300, true);
    assert srv.outbox[b] == receiverBefore;
    assert srv.outbox[a] == senderBefore + [NewMessage(saved.value)];
    toReceiver := srv.outbox[b][|receiverBefore|..];
    toSender := srv.outbox[a][|senderBefore|..];
  }

  /** A user who messages themself finds the message on their socket twice: once as receiver, once as sender. */
  method SelfMessageTwice(name: string, text: string) returns (saved: Option<Message>, toSelf: seq<ServerEvent>)
    requires CleanField(name) && CleanField(text)
    ensures saved.Some? && saved.value.sender == name && saved.value.receiver == name
    ensures toSelf == [NewMessage(saved.value), NewMessage(saved.value)]
  {
    var srv := new ChatServer();
    var s := srv.Connect();
    srv.Join(s, name);
    var before := srv.outbox[s];
    var payload := Payload(Some(name), Some(name), Some(text));
    assert AllSatisfied(AsInput(payload));
    saved := srv.PrivateMessage(s, Some(payload), 400, true);
    assert srv.outbox[s] == before + [NewMessage(saved.value), NewMessage(saved.value)];
    toSelf := srv.outbox[s][|before|..];
  }
}
