/**
 * The chat screen (frontend/src/components/ChatInterface.jsx): the list of messages, the
 * text being typed and the mode of the orb. Sending appends the user's message, clears
 * the input and sets the orb thinking; 1.2 seconds later a timer appends the fixed
 * assistant reply and sets the orb idle.
 *
 * React state becomes the fields of a class. The timers that have been started but have
 * not fired yet are counted in `pending`; the delay itself is left to the caller, which
 * calls `TimerFires` once per started timer, interleaved with sends. `HandleSend` reads
 * the messages as they stand, that is, it assumes the screen has re-rendered since the
 * last timer fired; a send handled before that re-render writes back the list it last
 * saw and drops the queued reply, which this model does not capture.
 */
module ChatInterface {
  import opened Wrappers
  import opened Text

  datatype Role = User | Assistant

  datatype Message = Message(role: Role, content: string)

  /** The `mode` handed to the orb. */
  datatype OrbMode = Idle | Thinking

  const Reply: string := "Processing request. Protocols engaged."

  /** The greeting: `user?.name || "User"` takes the name unless it is missing or empty. */
  function Greeting(name: Option<string>): (r: string)
    ensures StartsWith(r, "Identity verified: ")
    ensures name.Some? && name.value != [] ==> OccursAt(r, name.value, 19)
    ensures name.None? || name.value == [] ==> r == "Identity verified: " + "User" + ". Core systems initialized."
  {
    var shown := if name.Some? && name.value != [] then name.value else "User";
    var r := "Identity verified: " + shown + ". Core systems initialized.";
    assert r[..19] == "Identity verified: ";
    assert r[19..19 + |shown|] == shown;
    r
  }

  /** How many of the messages have the role. */
  function CountRole(ms: seq<Message>, role: Role): (n: nat)
    ensures n <= |ms|
  {
    if ms == [] then 0
    else CountRole(ms[..|ms| - 1], role) + (if ms[|ms| - 1].role == role then 1 else 0)
  }

  /** Appending a message adds one to the count of its role and nothing to the other. */
  lemma CountAppend(ms: seq<Message>, m: Message, role: Role)
    ensures CountRole(ms + [m], role) == CountRole(ms, role) + (if m.role == role then 1 else 0)
  {
    assert (ms + [m])[..|ms|] == ms;
  }

  /** `input.trim()` is truthy: the send button is shown and sending does something. */
  predicate CanSend(input: string): (b: bool)
    ensures b <==> exists i :: 0 <= i < |input| && !IsJsSpace(input[i])
    ensures b ==> input != []
  {
    !IsBlankJs(input)
  }

  /**
   * A conversation the screen can reach: the greeting first, every later assistant
   * message the fixed reply, no blank user message, and every user message answered
   * except those whose timer is still pending.
   */
  predicate Conversation(ms: seq<Message>, pending: nat) {
    && |ms| >= 1 && ms[0].role == Assistant
    && (forall i :: 1 <= i < |ms| && ms[i].role == Assistant ==> ms[i].content == Reply)
    && (forall i :: 0 <= i < |ms| && ms[i].role == User ==> CanSend(ms[i].content))
    && CountRole(ms, Assistant) + pending == CountRole(ms, User) + 1
  }

  /**
   * Once every timer has fired, there is exactly one reply per user message besides the
   * greeting, provided each send saw the replies queued before it (see the module header).
   */
  lemma QuietConversationIsAnswered(ms: seq<Message>)
    requires Conversation(ms, 0)
    ensures CountRole(ms, Assistant) == CountRole(ms, User) + 1
    ensures |ms| == 2 * CountRole(ms, User) + 1
  {
    RolesPartition(ms);
  }

  /** Every message is the user's or the assistant's. */
  lemma {:induction false} RolesPartition(ms: seq<Message>)
    ensures CountRole(ms, User) + CountRole(ms, Assistant) == |ms|
  {
    if ms != [] {
      RolesPartition(ms[..|ms| - 1]);
    }
  }

  class Chat {
    var messages: seq<Message>
    var input: string
    var orbMode: OrbMode
    /** Timers started by a send that have not fired yet. */
    var pending: nat

    /** The orb thinks only while some reply is still to come. */
    predicate Valid()
      reads this
    {
      Conversation(messages, pending) && (orbMode == Thinking ==> pending > 0)
    }

    /** The initial state: the greeting alone, an empty input, an idle orb. */
    constructor (name: Option<string>)
      ensures Valid()
      ensures messages == [Message(Assistant, Greeting(name))] && input == "" && orbMode == Idle && pending == 0
    {
      messages := [Message(Assistant, Greeting(name))];
      input := "";
      orbMode := Idle;
      pending := 0;
      new;
      assert [Message(Assistant, Greeting(name))][..0] == [];
    }

    /** The text area's `onChange`. */
    method SetInput(text: string)
      requires Valid()
      modifies this
      ensures Valid()
      ensures input == text && messages == old(messages) && orbMode == old(orbMode) && pending == old(pending)
    {
      input := text;
    }

    /** `handleSend`: nothing happens for blank input; otherwise the untrimmed text is sent. */
    method HandleSend()
      requires Valid()
      modifies this
      ensures Valid()
      ensures !CanSend(old(input)) ==> unchanged(this)
      ensures CanSend(old(input)) ==>
                && messages == old(messages) + [Message(User, old(input))]
                && input == "" && orbMode == Thinking && pending == old(pending) + 1
    {
      if !CanSend(input) {
        return;
      }
      CountAppend(messages, Message(User, input), User);
      CountAppend(messages, Message(User, input), Assistant);
      messages := messages + [Message(User, input)];
      input := "";
      orbMode := Thinking;
      pending := pending + 1;
    }

    /** The timer callback: the reply goes after whatever the list holds by then. */
    method TimerFires()
      requires Valid() && pending > 0
      modifies this
      ensures Valid()
      ensures messages == old(messages) + [Message(Assistant, Reply)]
      ensures input == old(input) && orbMode == Idle && pending == old(pending) - 1
    {
      CountAppend(messages, Message(Assistant, Reply), User);
      CountAppend(messages, Message(Assistant, Reply), Assistant);
      messages := messages + [Message(Assistant, Reply)];
      orbMode := Idle;
      pending := pending - 1;
    }

    /** `handleKeyDown`: Enter without Shift sends (and the newline is suppressed); any other key does nothing here. */
    method HandleKeyDown(key: string, shift: bool) returns (prevented: bool)
      requires Valid()
      modifies this
      ensures Valid()
      ensures prevented <==> key == "Enter" && !shift
      ensures !prevented || !CanSend(old(input)) ==> unchanged(this)
      ensures prevented && CanSend(old(input)) ==>
                && messages == old(messages) + [Message(User, old(input))]
                && input == "" && orbMode == Thinking && pending == old(pending) + 1
    {
      prevented := key == "Enter" && !shift;
      if prevented {
        HandleSend();
      }
    }
  }
}
