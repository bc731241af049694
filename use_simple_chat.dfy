/**
 * lib/hooks/use-simple-chat.ts: the browser-side state of the simple chat.
 * A submit appends the user's message, posts the conversation to the chat
 * route, and then either appends the assistant's answer or records the error.
 *
 * The state cells of the hook are the fields of `SimpleChatHook`; the pure
 * functions below say what each handler leaves behind, and the lemmas say
 * what that means for the conversation.
 */
module SimpleChatHook {
  import opened Wrappers
  import Text

  datatype Role = User | Assistant | System

  /** `Message`: an id (a fresh UUID), a role and the text. */
  datatype Message = Message(id: string, role: Role, content: string)

  /** The JSON body posted to the chat route. */
  datatype Request = Request(messages: seq<Message>, userId: string)

  /**
   * How the request ended: an ok response carrying `content`, a non-ok
   * response whose JSON body may carry an `error` text, or an exception
   * (the network failed or a body was not JSON) with its message.
   */
  datatype Reply = Answered(content: string) | Refused(status: nat, error: Option<string>) | Threw(message: string)

  /** The four state cells a submit touches. */
  datatype State = State(messages: seq<Message>, input: string, isLoading: bool, error: Option<string>)

  // ---------------------------------------------------------------------------
  // What the handlers compute

  /** The guard of `handleSubmit`: a non-blank input and a known user id. */
  predicate Accepts(input: string, userId: string) {
    Text.Trim(input) != "" && userId != ""
  }

  /** The message the input becomes. */
  function UserMessage(id: string, input: string): Message {
    Message(id, User, input)
  }

  /** The state once the request is on its way. */
  function Begun(s: State, id: string): State {
    State(s.messages + [UserMessage(id, s.input)], "", true, None)
  }

  /** The body posted: the conversation so far, then the new message. */
  function RequestOf(s: State, userId: string, id: string): Request {
    Request(s.messages + [UserMessage(id, s.input)], userId)
  }

  /**
   * The message of the error a failed reply raises: the route's `error` text,
   * or `Error: <status>` when that is absent or empty.
   */
  function ErrorText(reply: Reply): string
    requires !reply.Answered?
  {
    match reply
    case Refused(status, error) =>
      if error.Some? && error.value != "" then error.value else "Error: " + Text.NatToString(status)
    case Threw(message) => message
  }

  /** The state once the reply has been handled; `finally` always clears `isLoading`. */
  function Settled(s: State, assistantId: string, reply: Reply): State {
    match reply
    case Answered(content) => s.(messages := s.messages + [Message(assistantId, Assistant, content)], isLoading := false)
    case _ => s.(error := Some(ErrorText(reply)), isLoading := false)
  }

  /** A whole submit: nothing when the guard fails, else begin and settle. */
  function Submitted(s: State, userId: string, userMessageId: string, assistantId: string, reply: Reply): State {
    if Accepts(s.input, userId) then Settled(Begun(s, userMessageId), assistantId, reply) else s
  }

  /** The number of messages with role `role`. */
  function CountRole(messages: seq<Message>, role: Role): (n: nat)
    ensures n <= |messages|
  {
    if messages == [] then 0
    else CountRole(messages[..|messages| - 1], role) + if messages[|messages| - 1].role == role then 1 else 0
  }

  lemma {:induction false} CountRoleAppend(xs: seq<Message>, ys: seq<Message>, role: Role)
    ensures CountRole(xs + ys, role) == CountRole(xs, role) + CountRole(ys, role)
    decreases |ys|
  {
    if ys == [] {
      assert xs + ys == xs;
    } else {
      CountRoleAppend(xs, ys[..|ys| - 1], role);
      assert (xs + ys)[..|xs + ys| - 1] == xs + ys[..|ys| - 1];
    }
  }

  /** A single message counts once, under its own role. */
  lemma CountOneMessage(m: Message)
    ensures forall role :: CountRole([m], role) == if m.role == role then 1 else 0
  {
    assert [m][..0] == [];
  }

  // ---------------------------------------------------------------------------
  // What a submit means

  /** A submit with a blank input or before the user id is known changes nothing. */
  lemma RejectedSubmit(s: State, userId: string, userMessageId: string, assistantId: string, reply: Reply)
    requires Text.Blank(s.input) || userId == ""
    ensures Submitted(s, userId, userMessageId, assistantId, reply) == s
  {
    Text.TrimEmptyIffBlank(s.input);
  }

  /**
   * Beginning and then settling keeps the earlier conversation as a prefix,
   * adds the input as one user message, adds one assistant message carrying
   * the answer exactly when the reply is an answer, clears the input, ends
   * with `isLoading` false, and holds an error exactly when the reply failed.
   */
  lemma {:induction false} BegunThenSettled(s: State, userMessageId: string, assistantId: string, reply: Reply)
    ensures var t := Settled(Begun(s, userMessageId), assistantId, reply);
      && t.messages[..|s.messages|] == s.messages
      && t.messages[|s.messages|] == UserMessage(userMessageId, s.input)
      && |t.messages| == |s.messages| + (if reply.Answered? then 2 else 1)
      && (reply.Answered? ==> t.messages[|s.messages| + 1] == Message(assistantId, Assistant, reply.content))
      && CountRole(t.messages, User) == CountRole(s.messages, User) + 1
      && CountRole(t.messages, Assistant) == CountRole(s.messages, Assistant) + (if reply.Answered? then 1 else 0)
      && t.input == ""
      && !t.isLoading
      && (t.error.Some? <==> !reply.Answered?)
  {
    var user := UserMessage(userMessageId, s.input);
    var extra := if reply.Answered? then [Message(assistantId, Assistant, reply.content)] else [];
    var t := Settled(Begun(s, userMessageId), assistantId, reply);
    assert t.messages == s.messages + [user] + extra;
    assert t.messages[..|s.messages|] == s.messages;
    assert t.messages[|s.messages|] == user;
    CountOneMessage(user);
    CountRoleAppend(s.messages, [user], User);
    CountRoleAppend(s.messages, [user], Assistant);
    CountRoleAppend(s.messages + [user], extra, User);
    CountRoleAppend(s.messages + [user], extra, Assistant);
    if reply.Answered? {
      CountOneMessage(extra[0]);
      assert extra == [extra[0]];
    }
  }

  /** An accepted submit is a begin followed by a settle, with the effects above. */
  lemma AcceptedSubmit(s: State, userId: string, userMessageId: string, assistantId: string, reply: Reply)
    requires Accepts(s.input, userId)
    ensures Submitted(s, userId, userMessageId, assistantId, reply)
         == Settled(Begun(s, userMessageId), assistantId, reply)
    ensures var t := Submitted(s, userId, userMessageId, assistantId, reply);
      && |t.messages| == |s.messages| + (if reply.Answered? then 2 else 1)
      && CountRole(t.messages, User) == CountRole(s.messages, User) + 1
      && CountRole(t.messages, Assistant) == CountRole(s.messages, Assistant) + (if reply.Answered? then 1 else 0)
      && !t.isLoading
      && (t.error.Some? <==> !reply.Answered?)
  {
    BegunThenSettled(s, userMessageId, assistantId, reply);
  }

  /** The request carries the conversation as it stands once the user message is added. */
  lemma RequestMatchesConversation(s: State, userId: string, userMessageId: string)
    requires Accepts(s.input, userId)
    ensures RequestOf(s, userId, userMessageId).messages == Begun(s, userMessageId).messages
    ensures RequestOf(s, userId, userMessageId).userId != ""
  {
  }

  /**
   * The error a refused request raises is never empty, and without an `error`
   * text from the route it names the status, so different statuses give
   * different errors.
   */
  lemma RefusedErrorText(s1: nat, s2: nat)
    ensures ErrorText(Refused(s1, None)) != ""
    ensures ErrorText(Refused(s1, None)) == ErrorText(Refused(s2, None)) ==> s1 == s2
  {
    var prefix := "Error: ";
    if ErrorText(Refused(s1, None)) == ErrorText(Refused(s2, None)) {
      assert (prefix + Text.NatToString(s1))[|prefix|..] == Text.NatToString(s1);
      assert (prefix + Text.NatToString(s2))[|prefix|..] == Text.NatToString(s2);
      Text.NatToStringInjective(s1, s2);
    }
  }

  // ---------------------------------------------------------------------------
  // The hook's state cells

  class SimpleChatHook {
    var userId: string
    var messages: seq<Message>
    var input: string
    var isLoading: bool
    var error: Option<string>

    /** The four cells a submit touches, as one value. */
    function Snapshot(): State
      reads this
    {
      State(messages, input, isLoading, error)
    }

    /** The initial state; the user id is the one the bootstrapping effect settles on. */
    constructor(userId: string)
      ensures this.userId == userId
      ensures Snapshot() == State([], "", false, None)
    {
      this.userId := userId;
      messages := [];
      input := "";
      isLoading := false;
      error := None;
    }

    /** `handleInputChange`: the input follows the text area. */
    method HandleInputChange(value: string)
      modifies this
      ensures Snapshot() == old(Snapshot()).(input := value)
      ensures userId == old(userId)
    {
      input := value;
    }

    /**
     * The synchronous part of `handleSubmit`: on an accepted input, append the
     * user message, clear the input and the error, set `isLoading`, and
     * return the request to post; otherwise change nothing.
     */
    method Begin(userMessageId: string) returns (request: Option<Request>)
      modifies this
      ensures Accepts(old(input), userId) ==>
        && request == Some(RequestOf(old(Snapshot()), userId, userMessageId))
        && Snapshot() == Begun(old(Snapshot()), userMessageId)
      ensures !Accepts(old(input), userId) ==> request == None && Snapshot() == old(Snapshot())
      ensures userId == old(userId)
    {
      if Text.Trim(input) == "" || userId == "" {
        return None;
      }
      var userMessage := UserMessage(userMessageId, input);
      request := Some(Request(messages + [userMessage], userId));
      messages := messages + [userMessage];
      input := "";
      isLoading := true;
      error := None;
    }

    /** The asynchronous part of `handleSubmit`, once the reply is known. */
    method Finish(assistantId: string, reply: Reply)
      modifies this
      ensures Snapshot() == Settled(old(Snapshot()), assistantId, reply)
      ensures userId == old(userId)
    {
      if reply.Answered? {
        messages := messages + [Message(assistantId, Assistant, reply.content)];
      } else {
        error := Some(ErrorText(reply));
      }
      isLoading := false;
    }

    /** `handleSubmit`, with the reply the route gives and the fresh message ids as inputs. */
    method HandleSubmit(userMessageId: string, assistantId: string, reply: Reply) returns (request: Option<Request>)
      modifies this
      ensures request.Some? <==> Accepts(old(input), userId)
      ensures request.Some? ==> request.value == RequestOf(old(Snapshot()), userId, userMessageId)
      ensures Snapshot() == Submitted(old(Snapshot()), userId, userMessageId, assistantId, reply)
      ensures userId == old(userId)
    {
      request := Begin(userMessageId);
      if request.Some? {
        Finish(assistantId, reply);
      }
    }

    /** `clearChat`: the conversation is emptied and nothing else changes. */
    method ClearChat()
      modifies this
      ensures Snapshot() == old(Snapshot()).(messages := [])
      ensures userId == old(userId)
    {
      messages := [];
    }

    /** `stop`: there is no stream to stop, so no state changes. */
    method Stop()
      ensures Snapshot() == old(Snapshot())
    {
    }
  }
}
