/**
 * The HTTP read path of the server: the static directory of users, login lookup,
 * the history of one conversation and the contacts derived from the message log.
 */
module ServerQueries {
  import opened Util
  import opened Strings
  import opened MessageSchema

  /** The predefined users and their declared connections; passwords are stored but never checked. */
  const Directory: map<string, seq<string>> := map[
    "satya" := ["ramu", "raju", "karan"],
    "ramu" := ["satya", "karan"],
    "raju" := ["satya", "karan"],
    "karan" := ["satya", "ramu", "raju"]
  ]

  /** The declared connection lists are symmetric, name only known users, and never name the user themself. */
  lemma DirectoryWellFormed()
    ensures forall u, v :: u in Directory && v in Directory[u] ==> v in Directory && u in Directory[v] && u != v
  {
  }

  /** The login response: `success: true` with a name and (possibly absent) connections, or `success: false`. */
  datatype LoginReply = Granted(username: string, connections: Option<seq<string>>) | NotFound

  /**
   * Property names every plain JavaScript object inherits from Object.prototype and that are
   * already lower case, so that a lower-cased login name can reach them.
   */
  const InheritedLowerCaseKeys: set<string> := {"constructor", "__proto__"}

  /** Login as the code performs it: `users[name.toLowerCase()]` is truthy for own AND inherited properties. */
  function LoginAsWritten(username: string): (r: LoginReply)
    ensures r.Granted? <==> ToLower(username) in Directory || ToLower(username) in InheritedLowerCaseKeys
    ensures r.Granted? ==> r.username == ToLower(username)
    ensures r.Granted? && ToLower(username) in Directory ==> r.connections == Some(Directory[r.username])
  {
    var name := ToLower(username);
    if name in Directory then Granted(name, Some(Directory[name]))
    else if name in InheritedLowerCaseKeys then Granted(name, None)
    else NotFound
  }

  /** The discrepancy: "Constructor" is no user, yet the lookup as written grants it, without connections. */
  lemma LoginAsWrittenGrantsConstructor()
    ensures "constructor" !in Directory
    ensures LoginAsWritten("Constructor") == Granted("constructor", None)
  {
    var lowered := ToLower("Constructor");
    assert lowered[0] == 'c';
    assert lowered == "constructor";
  }

  /** Login as intended: only the directory's own entries are users. */
  function Login(username: string): (r: LoginReply)
    ensures r.Granted? <==> ToLower(username) in Directory
    ensures r.Granted? ==> r.username == ToLower(username) && r.username in Directory
    ensures r.Granted? ==> r.connections == Some(Directory[r.username])
  {
    var name := ToLower(username);
    if name in Directory then Granted(name, Some(Directory[name])) else NotFound
  }

  /** Case-insensitivity: names that lower-case alike get the same answer, and the returned name logs in as itself. */
  lemma LoginCaseInsensitive(a: string, b: string)
    requires ToLower(a) == ToLower(b)
    ensures Login(a) == Login(b)
    ensures Login(a).Granted? ==> Login(Login(a).username) == Login(a)
  {
    ToLowerIdempotent(a);
  }

  /** The corrected lookup refuses the inherited property names, whatever their case. */
  lemma LoginRefusesInheritedKeys(username: string)
    requires ToLower(username) in InheritedLowerCaseKeys
    ensures Login(username) == NotFound
  {
  }

  /** One side of a conversation filter: the message was exchanged between `u1` and `u2`, in either direction. */
  predicate Between(m: Message, u1: string, u2: string) {
    (m.sender == u1 && m.receiver == u2) || (m.sender == u2 && m.receiver == u1)
  }

  /** The log messages between `u1` and `u2`, in log order (the `$or` query before sorting). */
  function Conversation(log: seq<Message>, u1: string, u2: string): (r: seq<Message>)
    ensures forall m :: m in r <==> m in log && Between(m, u1, u2)
    ensures forall m :: multiset(r)[m] == if Between(m, u1, u2) then multiset(log)[m] else 0
    ensures IsSubsequence(r, log)
  {
    if log == [] then []
    else
      var rest := Conversation(log[1..], u1, u2);
      assert log == [log[0]] + log[1..];
      if Between(log[0], u1, u2) then [log[0]] + rest
      else
        assert rest == [] || rest[0] != log[0];
        rest
  }

  /** Ascending by timestamp; equal timestamps may come in any order. */
  predicate SortedByTime(s: seq<Message>) {
    forall i, j :: 0 <= i < j < |s| ==> s[i].timestamp <= s[j].timestamp
  }

  /** Inserts `m` before the first element that is not earlier than it. */
  function InsertByTime(m: Message, s: seq<Message>): (r: seq<Message>)
    requires SortedByTime(s)
    ensures SortedByTime(r)
    ensures multiset(r) == multiset(s) + multiset{m}
    ensures forall x :: x in r ==> x == m || x in s
  {
    if s == [] || m.timestamp <= s[0].timestamp then [m] + s
    else
      var rest := InsertByTime(m, s[1..]);
      InsertByTimeHead(m, s, rest);
      assert s == [s[0]] + s[1..];
      [s[0]] + rest
  }

  /** Putting the head of `s` back in front of the insertion into its tail keeps the order. */
  lemma InsertByTimeHead(m: Message, s: seq<Message>, rest: seq<Message>)
    requires s != [] && SortedByTime(s) && s[0].timestamp < m.timestamp
    requires SortedByTime(rest)
    requires forall x :: x in rest ==> x == m || x in s[1..]
    ensures SortedByTime([s[0]] + rest)
  {
    var r := [s[0]] + rest;
    forall i, j | 0 <= i < j < |r| ensures r[i].timestamp <= r[j].timestamp {
      if i == 0 {
        assert r[j] in rest;
      } else {
        assert r[i] == rest[i - 1] && r[j] == rest[j - 1];
      }
    }
  }

  /** `.sort({ timestamp: 1 })`, as an insertion sort that keeps log order among equal timestamps. */
  function SortByTime(s: seq<Message>): (r: seq<Message>)
    ensures SortedByTime(r)
    ensures multiset(r) == multiset(s)
  {
    if s == [] then []
    else
      assert s == [s[0]] + s[1..];
      InsertByTime(s[0], SortByTime(s[1..]))
  }

  /** `GET /api/messages/:user1/:user2`: the messages between the two users, oldest first. */
  function History(log: seq<Message>, u1: string, u2: string): (r: seq<Message>)
    ensures SortedByTime(r)
    ensures forall m :: m in r <==> m in log && Between(m, u1, u2)
    ensures forall m :: multiset(r)[m] == if Between(m, u1, u2) then multiset(log)[m] else 0
  {
    var c := Conversation(log, u1, u2);
    var r := SortByTime(c);
    assert forall m :: m in r <==> m in c by {
      forall m ensures m in r <==> m in c {
        assert m in r <==> m in multiset(r);
        assert m in c <==> m in multiset(c);
      }
    }
    r
  }

  /** The conversation is the same whichever user is named first. */
  lemma {:induction false} ConversationSymmetric(log: seq<Message>, u1: string, u2: string)
    ensures Conversation(log, u1, u2) == Conversation(log, u2, u1)
  {
    if log != [] {
      ConversationSymmetric(log[1..], u1, u2);
    }
  }

  /** Hence the history is too: both users of a conversation see the same sequence. */
  lemma HistorySymmetric(log: seq<Message>, u1: string, u2: string)
    ensures History(log, u1, u2) == History(log, u2, u1)
  {
    ConversationSymmetric(log, u1, u2);
  }

  /** A message appended to the log shows up in the history of its own two parties. */
  lemma HistoryHasNewMessage(log: seq<Message>, m: Message)
    ensures m in History(log + [m], m.sender, m.receiver)
    ensures History(log + [m], m.sender, m.receiver) == History(log + [m], m.receiver, m.sender)
  {
    HistorySymmetric(log + [m], m.sender, m.receiver);
  }

  /** `Message.distinct('receiver', { sender: u })` before duplicates are removed: receivers of u's messages. */
  function Receivers(log: seq<Message>, u: string): (r: seq<string>)
    ensures forall x :: x in r <==> exists m :: m in log && m.sender == u && m.receiver == x
  {
    if log == [] then []
    else
      var rest := Receivers(log[1..], u);
      assert forall m :: m in log <==> m == log[0] || m in log[1..];
      if log[0].sender == u then [log[0].receiver] + rest else rest
  }

  /** `Message.distinct('sender', { receiver: u })` before duplicates are removed: senders of messages to u. */
  function Senders(log: seq<Message>, u: string): (r: seq<string>)
    ensures forall x :: x in r <==> exists m :: m in log && m.receiver == u && m.sender == x
  {
    if log == [] then []
    else
      var rest := Senders(log[1..], u);
      assert forall m :: m in log <==> m == log[0] || m in log[1..];
      if log[0].receiver == u then [log[0].sender] + rest else rest
  }

  /** `GET /api/contacts/:username`: every user u has written to or heard from, each once. */
  function Contacts(log: seq<Message>, u: string): (r: seq<string>)
    ensures NoDup(r)
    ensures forall x :: x in r <==>
              (exists m :: m in log && m.sender == u && m.receiver == x)
              || (exists m :: m in log && m.receiver == u && m.sender == x)
  {
    Dedup(Dedup(Receivers(log, u)) + Dedup(Senders(log, u)))
  }

  /** The contact relation is symmetric: if v is a contact of u then u is a contact of v. */
  lemma ContactsSymmetric(log: seq<Message>, u: string, v: string)
    requires v in Contacts(log, u)
    ensures u in Contacts(log, v)
  {
  }
}
