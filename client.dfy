/**
 * The chat client's view model: the state hooks of the single page component and the
 * socket and form handlers that update them. The computations inside the handlers
 * (the online filter, the conversation test, the dedup-and-append merge, the toast test,
 * the send guard) are functions; each handler is a method that applies them to the fields.
 */
module ChatClient {
  import opened Util
  import opened Strings
  import opened MessageSchema
  import opened ServerQueries

  /** What the client emits on its socket. */
  datatype ClientEvent = Join(username: string) | SendPrivate(sender: string, receiver: string, text: string)

  /** A notification on screen. */
  datatype Toast = Toast(title: string, body: string)

  /** The outcome of the history request: a JSON array, some other JSON value, or a failed request. */
  datatype FetchResult = FetchedArray(items: seq<Message>) | FetchedOther | FetchFailed

  const NotFoundError: string := "User not found! Try: satya, ramu, raju, or karan"
  const ConnectionError: string := "Connection error. Is the server running?"

  /** The `onlineUsers` handler's filter: the broadcast names other than me that are among my connections. */
  function VisibleOnline(users: seq<string>, me: string, connections: seq<string>): (r: seq<string>)
    ensures forall u :: u in r <==> u in users && u != me && u in connections
    ensures IsSubsequence(r, users)
    ensures NoDup(users) ==> NoDup(r)
  {
    if users == [] then []
    else
      var rest := VisibleOnline(users[1..], me, connections);
      if users[0] != me && users[0] in connections then
        assert NoDup(users) ==> users[0] !in users[1..];
        [users[0]] + rest
      else
        assert rest != [] ==> rest[0] in rest;
        rest
  }

  /** The message belongs to the open conversation between `me` and `selected`, in either direction. */
  predicate InConversation(msg: Message, me: string, selected: string) {
    (msg.sender == me && msg.receiver == selected) || (msg.sender == selected && msg.receiver == me)
  }

  /** Some message in `s` carries the id (the `prev.find(m => m._id === msg._id)` test). */
  predicate HasId(s: seq<Message>, id: MessageId) {
    exists m :: m in s && m.id == id
  }

  /** No two messages in `s` share an id. */
  predicate UniqueIds(s: seq<Message>) {
    forall i, j :: 0 <= i < j < |s| ==> s[i].id != s[j].id
  }

  /** The `setMessages` updater of the `newMessage` handler: append unless the id is already shown. */
  function MergeMessage(prev: seq<Message>, msg: Message): (r: seq<Message>)
    ensures |prev| <= |r| <= |prev| + 1 && r[..|prev|] == prev
    ensures |r| == |prev| + 1 <==> !HasId(prev, msg.id)
    ensures |r| == |prev| + 1 ==> r[|prev|] == msg
    ensures HasId(r, msg.id)
  {
    if HasId(prev, msg.id) then prev
    else
      var r := prev + [msg];
      assert r[|prev|] in r;
      r
  }

  /** Merging the same message twice is merging it once. */
  lemma MergeIdempotent(prev: seq<Message>, msg: Message)
    ensures MergeMessage(MergeMessage(prev, msg), msg) == MergeMessage(prev, msg)
  {
  }

  /** The merge never introduces a second message with an id already shown. */
  lemma MergeKeepsIdsUnique(prev: seq<Message>, msg: Message)
    requires UniqueIds(prev)
    ensures UniqueIds(MergeMessage(prev, msg))
  {
    var r := MergeMessage(prev, msg);
    if |r| == |prev| + 1 {
      forall i | 0 <= i < |prev| ensures r[i].id != msg.id {
        assert r[i] == prev[i] && prev[i] in prev;
      }
    }
  }

  /** The toast test: the message comes from someone else who is one of my connections. */
  predicate ShouldToast(msg: Message, me: string, connections: seq<string>) {
    msg.sender != me && msg.sender in connections
  }

  /** The toast raised for a message. */
  function ToastFor(msg: Message): Toast {
    Toast("Message from " + msg.sender, msg.text)
  }

  /** What the history load puts into `messages`: the array if the response is one, otherwise nothing. */
  function LoadedMessages(f: FetchResult): seq<Message> {
    match f
    case FetchedArray(items) => items
    case _ => []
  }

  /** `Array.isArray(data.connections) ? data.connections : []`. */
  function ConnectionsOrEmpty(c: Option<seq<string>>): seq<string> {
    match c
    case Some(list) => list
    case None => []
  }

  /** The guard of `handleSendMessage`: non-blank input, a socket, and an open conversation. */
  predicate CanSend(text: string, socketPresent: bool, selected: string) {
    Trim(text) != "" && socketPresent && selected != ""
  }

  /** An input of white space only (or nothing) is never sent. */
  lemma BlankNeverSent(text: string, socketPresent: bool, selected: string)
    requires AllSpace(text)
    ensures !CanSend(text, socketPresent, selected)
  {
    TrimSpec(text);
  }

  /**
   * What the guard lets through passes the text rule of the schema, although the client sends the
   * untrimmed input; with clean sender and receiver names the whole message validates.
   */
  lemma SentTextValidates(me: string, selected: string, text: string, id: MessageId, now: int)
    requires CanSend(text, true, selected)
    requires CleanField(me) && CleanField(selected)
    ensures var input := MessageInput(Some(me), Some(selected), Some(text), None);
            && Validate(input, id, now).Success?
            && Validate(input, id, now).value.text == Trim(text)
            && Validate(input, id, now).value.sender == me
            && Validate(input, id, now).value.receiver == selected
  {
  }

  /** All the component's state hooks at one moment. */
  datatype View = View(
    socketPresent: bool, username: string, isLoggedIn: bool, loginError: string,
    message: string, messages: seq<Message>, onlineUsers: seq<string>,
    selectedUser: string, connections: seq<string>, toasts: seq<Toast>, emitted: seq<ClientEvent>)

  class ChatClient {
    /** Whether `socket` is set (it is null until the connect effect runs). */
    var socketPresent: bool
    var username: string
    var isLoggedIn: bool
    var loginError: string
    /** The text in the message input. */
    var message: string
    /** The open conversation. */
    var messages: seq<Message>
    var onlineUsers: seq<string>
    var selectedUser: string
    var connections: seq<string>
    var toasts: seq<Toast>
    /** Everything emitted on the socket, oldest first. */
    var emitted: seq<ClientEvent>

    /** The whole state, so that a handler's contract can say which hooks it sets and that no other changes. */
    function Snapshot(): View
      reads this
    {
      View(socketPresent, username, isLoggedIn, loginError, message, messages, onlineUsers,
           selectedUser, connections, toasts, emitted)
    }

    /** The initial values of the state hooks. */
    constructor ()
      ensures Snapshot() == View(false, "", false, "", "", [], [], "", [], [], [])
    {
      socketPresent, username, isLoggedIn, loginError := false, "", false, "";
      message, messages, onlineUsers := "", [], [];
      selectedUser, connections, toasts, emitted := "", [], [], [];
    }

    /** The connect effect: the socket is created and stored. */
    method Mount()
      modifies this
      ensures Snapshot() == old(Snapshot()).(socketPresent := true)
    {
      socketPresent := true;
    }

    /** The login input's `onChange`. */
    method EditUsername(text: string)
      modifies this
      ensures Snapshot() == old(Snapshot()).(username := text)
    {
      username := text;
    }

    /** The message input's `onChange`. */
    method EditMessage(text: string)
      modifies this
      ensures Snapshot() == old(Snapshot()).(message := text)
    {
      message := text;
    }

    /** The `onlineUsers` listener: only the filtered broadcast is kept. */
    method OnOnlineUsers(users: seq<string>)
      requires socketPresent
      modifies this
      ensures Snapshot() == old(Snapshot()).(onlineUsers := VisibleOnline(users, username, connections))
      ensures forall u :: u in onlineUsers <==> u in users && u != username && u in connections
      ensures IsSubsequence(onlineUsers, users)
    {
      onlineUsers := VisibleOnline(users, username, connections);
    }

    /**
     * The `newMessage` listener: a message of the open conversation is merged; independently,
     * a message from one of my connections raises a toast, open conversation or not.
     */
    method OnNewMessage(msg: Message)
      requires socketPresent
      modifies this
      ensures messages == if InConversation(msg, username, selectedUser) then MergeMessage(old(messages), msg) else old(messages)
      ensures toasts == if ShouldToast(msg, username, connections) then old(toasts) + [ToastFor(msg)] else old(toasts)
      ensures Snapshot() == old(Snapshot()).(messages := messages, toasts := toasts)
    {
      if InConversation(msg, username, selectedUser) {
        messages := MergeMessage(messages, msg);
      }
      if ShouldToast(msg, username, connections) {
        toasts := toasts + [ToastFor(msg)];
      }
    }

    /**
     * Clicking a connection, followed by the history effect. The effect runs only when the
     * selection actually changes and both names are set; its response then replaces `messages`.
     */
    method SelectUser(user: string, fetched: FetchResult)
      modifies this
      ensures var reload := user != old(selectedUser) && user != "" && username != "";
              messages == if reload then LoadedMessages(fetched) else old(messages)
      ensures Snapshot() == old(Snapshot()).(selectedUser := user, messages := messages)
    {
      var reload := user != selectedUser && user != "" && username != "";
      selectedUser := user;
      if reload {
        messages := LoadedMessages(fetched);
      }
    }

    /**
     * `handleLogin`: a blank name does nothing; otherwise `reply` is the server's answer to the
     * trimmed name (`None` when the request or its JSON failed). On success the name and the
     * connections are set before `socket.emit('join')`, which throws when there is no socket yet.
     */
    method HandleLogin(reply: Option<LoginReply>)
      modifies this
      ensures Trim(old(username)) == "" ==> Snapshot() == old(Snapshot())
      ensures Trim(old(username)) != "" && reply == None ==>
                Snapshot() == old(Snapshot()).(loginError := ConnectionError)
      ensures Trim(old(username)) != "" && reply == Some(NotFound) ==>
                Snapshot() == old(Snapshot()).(loginError := NotFoundError)
      ensures Trim(old(username)) != "" && reply.Some? && reply.value.Granted? && socketPresent ==>
                Snapshot() == old(Snapshot()).(username := reply.value.username,
                                               connections := ConnectionsOrEmpty(reply.value.connections),
                                               emitted := old(emitted) + [Join(reply.value.username)],
                                               isLoggedIn := true, loginError := "")
      ensures Trim(old(username)) != "" && reply.Some? && reply.value.Granted? && !socketPresent ==>
                Snapshot() == old(Snapshot()).(username := reply.value.username,
                                               connections := ConnectionsOrEmpty(reply.value.connections),
                                               loginError := ConnectionError)
    {
      if Trim(username) == "" {
        return;
      }
      match reply {
        case None =>
          loginError := ConnectionError;
        case Some(NotFound) =>
          loginError := NotFoundError;
        case Some(Granted(name, list)) =>
          username := name;
          connections := ConnectionsOrEmpty(list);
          if socketPresent {
            emitted := emitted + [Join(name)];
            isLoggedIn := true;
            loginError := "";
          } else {
            loginError := ConnectionError;
          }
      }
    }

    /** `handleSendMessage`: emit the raw input to the open conversation and clear it, when the guard holds. */
    method HandleSendMessage()
      modifies this
      ensures CanSend(old(message), socketPresent, selectedUser) ==>
                Snapshot() == old(Snapshot()).(emitted := old(emitted) + [SendPrivate(username, selectedUser, old(message))],
                                               message := "")
      ensures !CanSend(old(message), socketPresent, selectedUser) ==> Snapshot() == old(Snapshot())
    {
      if CanSend(message, socketPresent, selectedUser) {
        emitted := emitted + [SendPrivate(username, selectedUser, message)];
        message := "";
      }
    }
  }
}
