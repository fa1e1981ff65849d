/**
 * The persisted message record and the rules its schema enforces before a save:
 * `sender`, `receiver` and `text` are strings that are trimmed and required,
 * and `timestamp` defaults to the creation time.
 */
module MessageSchema {
  import opened Util
  import opened Strings

  /** The store's document id (an ObjectId); only its equality and freshness matter here. */
  type MessageId = nat

  /** A persisted message as the server emits it and the history query returns it. */
  datatype Message = Message(id: MessageId, sender: string, receiver: string, text: string, timestamp: int)

  /** The fields handed to the model's constructor; `None` is a missing or null field. */
  datatype MessageInput = MessageInput(sender: Option<string>, receiver: Option<string>, text: Option<string>, timestamp: Option<int>)

  /** A schema path whose `required` validator can fail. */
  datatype Path = SenderPath | ReceiverPath | TextPath

  /** The `trim: true` setter followed by the `required: true` validator: present and not empty once trimmed. */
  predicate Satisfied(v: Option<string>) {
    v.Some? && Trim(v.value) != ""
  }

  /** All three required paths hold a value that survives trimming. */
  predicate AllSatisfied(input: MessageInput) {
    Satisfied(input.sender) && Satisfied(input.receiver) && Satisfied(input.text)
  }

  /** What a document that passed validation stores: a non-empty string with no surrounding white space. */
  predicate CleanField(s: string) {
    s != "" && Trim(s) == s
  }

  /** Every stored string field is clean. */
  predicate WellFormed(m: Message) {
    CleanField(m.sender) && CleanField(m.receiver) && CleanField(m.text)
  }

  /** The paths that fail validation, in schema order; validation reports all of them at once. */
  function FailingPaths(input: MessageInput): (r: seq<Path>)
    ensures SenderPath in r <==> !Satisfied(input.sender)
    ensures ReceiverPath in r <==> !Satisfied(input.receiver)
    ensures TextPath in r <==> !Satisfied(input.text)
  {
    var a: seq<Path> := if Satisfied(input.sender) then [] else [SenderPath];
    var b: seq<Path> := if Satisfied(input.receiver) then [] else [ReceiverPath];
    var c: seq<Path> := if Satisfied(input.text) then [] else [TextPath];
    assert forall x :: x in a + b + c <==> x in a || x in b || x in c;
    a + b + c
  }

  /** The document the setters produce from fields that all passed validation. */
  function Stored(input: MessageInput, id: MessageId, now: int): (m: Message)
    requires AllSatisfied(input)
    ensures WellFormed(m) && m.id == id
    ensures m.sender == Trim(input.sender.value) && m.receiver == Trim(input.receiver.value) && m.text == Trim(input.text.value)
    ensures m.timestamp == if input.timestamp.Some? then input.timestamp.value else now
  {
    TrimIdempotent(input.sender.value);
    TrimIdempotent(input.receiver.value);
    TrimIdempotent(input.text.value);
    var ts := match input.timestamp case Some(t) => t case None => now;
    Message(id, Trim(input.sender.value), Trim(input.receiver.value), Trim(input.text.value), ts)
  }

  /**
   * Constructing a document and validating it on `save`. The id is assigned at construction;
   * `now` is the clock reading taken by the `default: Date.now` of `timestamp`.
   */
  function Validate(input: MessageInput, id: MessageId, now: int): (r: Result<Message, seq<Path>>)
    ensures r.Success? <==> AllSatisfied(input)
    ensures r.Failure? ==> r.error != [] && r.error == FailingPaths(input)
    ensures r.Success? ==> r.value == Stored(input, id, now)
  {
    if AllSatisfied(input) then Success(Stored(input, id, now)) else Failure(FailingPaths(input))
  }

  /** A text that is missing, empty or only white space is rejected, whatever the other fields hold. */
  lemma {:induction false} BlankTextRejected(input: MessageInput, id: MessageId, now: int)
    requires input.text.None? || AllSpace(input.text.value)
    ensures Validate(input, id, now).Failure?
    ensures TextPath in Validate(input, id, now).error
  {
    if input.text.Some? {
      TrimSpec(input.text.value);
    }
    assert !Satisfied(input.text);
  }

  /** Likewise a blank or missing sender, or a blank or missing receiver, each reported under its own path. */
  lemma {:induction false} BlankPartyRejected(input: MessageInput, id: MessageId, now: int)
    requires input.sender.None? || AllSpace(input.sender.value) || input.receiver.None? || AllSpace(input.receiver.value)
    ensures Validate(input, id, now).Failure?
    ensures input.sender.None? || AllSpace(input.sender.value) ==> SenderPath in Validate(input, id, now).error
    ensures input.receiver.None? || AllSpace(input.receiver.value) ==> ReceiverPath in Validate(input, id, now).error
  {
    if input.sender.Some? {
      TrimSpec(input.sender.value);
    }
    if input.receiver.Some? {
      TrimSpec(input.receiver.value);
    }
  }

  /** Validating the fields of an accepted message again accepts the very same message: the setters are idempotent. */
  lemma {:induction false} RevalidateStored(input: MessageInput, id: MessageId, now: int)
    requires Validate(input, id, now).Success?
    ensures var m := Validate(input, id, now).value;
            Validate(MessageInput(Some(m.sender), Some(m.receiver), Some(m.text), Some(m.timestamp)), m.id, now) == Success(m)
  {
    var m := Validate(input, id, now).value;
    var again := MessageInput(Some(m.sender), Some(m.receiver), Some(m.text), Some(m.timestamp));
    assert AllSatisfied(again);
  }
}
