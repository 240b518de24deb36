/**
  The scripted chat widget (components/layout/AICoach.tsx): a panel that opens and closes,
  an input line, and a conversation log that starts with a greeting, grows by one user entry
  per non-blank send and by one canned assistant reply per send, a second after it.
 */
module AICoach {

  datatype Role = User | Assistant

  datatype ChatMessage = ChatMessage(role: Role, content: string)

  const Greeting: string :=
    "Hi! I'm your FTC Drivetrain AI Coach. Ask me anything about drivetrains, control theory, gear ratios, or robot design!"

  /** The canned replies; a reply picks one of them. */
  const Responses: seq<string> := [
    "Great question! For drivetrain optimization, consider the trade-off between speed and torque. Tank drives prioritize simplicity, while mecanum drives offer omnidirectional movement.",
    "PID control is essential for precise autonomous movement. Start by tuning Kp first, then add Ki for steady-state error, and Kd for damping oscillations.",
    "Gear ratios determine your robot's speed vs torque. Higher ratios (like 3:1) give more torque for pushing, lower ratios (like 1:1) prioritize speed.",
    "Motor selection depends on your game strategy. REV HD Hex motors offer good torque, while NEO motors provide excellent power-to-weight ratios.",
    "For mecanum drives, remember that wheel orientation matters! The rollers should form an 'X' pattern when viewed from above."
  ]

  /** The characters `String.prototype.trim` removes: ECMAScript WhiteSpace and LineTerminator. */
  predicate IsWhitespace(c: char)
  {
    c == '\t' || c == '\n' || c == '\U{000B}' || c == '\U{000C}' || c == '\r' || c == ' '
    || c == '\U{00A0}' || c == '\U{1680}' || ('\U{2000}' <= c <= '\U{200A}')
    || c == '\U{2028}' || c == '\U{2029}' || c == '\U{202F}' || c == '\U{205F}'
    || c == '\U{3000}' || c == '\U{FEFF}'
  }

  /** A message made of whitespace only (the empty message included). */
  predicate IsBlank(s: string)
  {
    forall i :: 0 <= i < |s| ==> IsWhitespace(s[i])
  }

  /** `s` without its leading whitespace. */
  function TrimStart(s: string): (r: string)
    ensures |r| <= |s| && r == s[|s| - |r|..]
    ensures forall i :: 0 <= i < |s| - |r| ==> IsWhitespace(s[i])
    ensures r != [] ==> !IsWhitespace(r[0])
  {
    if s != [] && IsWhitespace(s[0]) then TrimStart(s[1..]) else s
  }

  /** `s` without its trailing whitespace. */
  function TrimEnd(s: string): (r: string)
    ensures |r| <= |s| && r == s[..|r|]
    ensures forall i :: |r| <= i < |s| ==> IsWhitespace(s[i])
    ensures r != [] ==> !IsWhitespace(r[|r| - 1])
  {
    if s != [] && IsWhitespace(s[|s| - 1]) then TrimEnd(s[..|s| - 1]) else s
  }

  /** `s.trim()`. */
  function Trim(s: string): string
  {
    TrimEnd(TrimStart(s))
  }

  /** `!message.trim()` holds, i.e. the trimmed text is empty, exactly for blank messages. */
  lemma TrimEmptyIffBlank(s: string)
    ensures Trim(s) == [] <==> IsBlank(s)
  {
    var t := TrimStart(s);
    if t != [] {
      assert !IsWhitespace(s[|s| - |t|]);
    }
  }

  /** The guard of `handleSend`, `!message.trim()`: true exactly for a blank message. */
  function SendIgnored(message: string): (ignored: bool)
    ensures ignored <==> IsBlank(message)
  {
    TrimEmptyIffBlank(message);
    Trim(message) == []
  }

  /** How many entries of the log have the given role. */
  function CountRole(log: seq<ChatMessage>, role: Role): nat
  {
    if log == [] then 0
    else CountRole(log[..|log| - 1], role) + (if log[|log| - 1].role == role then 1 else 0)
  }

  /** Appending one entry adds one to its role's count and nothing to the other's. */
  lemma CountRoleAppend(log: seq<ChatMessage>, m: ChatMessage, role: Role)
    ensures CountRole(log + [m], role) == CountRole(log, role) + (if m.role == role then 1 else 0)
  {
    assert (log + [m])[..|log|] == log;
  }

  /**
    The invariant of the conversation log: it starts with the greeting, every later assistant
    entry is a canned reply, every user entry is a non-blank message, and each user entry has
    had, or is among the `pending` still owed, exactly one reply.
   */
  predicate LogInvariant(log: seq<ChatMessage>, pending: nat)
  {
    && |log| >= 1
    && log[0] == ChatMessage(Assistant, Greeting)
    && (forall i :: 1 <= i < |log| && log[i].role == Assistant ==> log[i].content in Responses)
    && (forall i :: 0 <= i < |log| && log[i].role == User ==> !IsBlank(log[i].content))
    && CountRole(log, User) + 1 == CountRole(log, Assistant) + pending
  }

  /** The initial log, the greeting alone with nothing owed, satisfies the invariant. */
  lemma InitialLogInvariant()
    ensures LogInvariant([ChatMessage(Assistant, Greeting)], 0)
  {
    assert [ChatMessage(Assistant, Greeting)][..0] == [];
  }

  /** Sending a non-blank message keeps the invariant, with one more reply owed. */
  lemma SendKeepsLogInvariant(log: seq<ChatMessage>, pending: nat, text: string)
    requires LogInvariant(log, pending) && !IsBlank(text)
    ensures LogInvariant(log + [ChatMessage(User, text)], pending + 1)
  {
    CountRoleAppend(log, ChatMessage(User, text), User);
    CountRoleAppend(log, ChatMessage(User, text), Assistant);
  }

  /** Delivering a canned reply that was owed keeps the invariant, with one reply fewer owed. */
  lemma ReplyKeepsLogInvariant(log: seq<ChatMessage>, pending: nat, index: nat)
    requires LogInvariant(log, pending) && pending > 0 && index < |Responses|
    ensures LogInvariant(log + [ChatMessage(Assistant, Responses[index])], pending - 1)
  {
    CountRoleAppend(log, ChatMessage(Assistant, Responses[index]), User);
    CountRoleAppend(log, ChatMessage(Assistant, Responses[index]), Assistant);
  }

  /** The widget's state. `pendingReplies` counts the replies scheduled by a send and not yet delivered. */
  class Coach {
    var isOpen: bool
    var message: string
    var messages: seq<ChatMessage>
    var pendingReplies: nat

    ghost predicate Valid()
      reads this
    {
      LogInvariant(messages, pendingReplies)
    }

    /** The panel starts closed, the input empty, the log holding only the greeting. */
    constructor ()
      ensures Valid()
      ensures !isOpen && message == [] && pendingReplies == 0
      ensures messages == [ChatMessage(Assistant, Greeting)]
    {
      isOpen := false;
      message := [];
      messages := [ChatMessage(Assistant, Greeting)];
      pendingReplies := 0;
      InitialLogInvariant();
    }

    /** The input's change handler. */
    method SetMessage(text: string)
      modifies this
      ensures message == text
      ensures isOpen == old(isOpen) && messages == old(messages) && pendingReplies == old(pendingReplies)
    {
      message := text;
    }

    /**
      `handleSend`: a blank message changes nothing; any other is appended, untrimmed, as a
      user entry, the input is cleared and one reply is scheduled.
     */
    method Send()
      requires Valid()
      modifies this
      ensures Valid()
      ensures old(messages) <= messages
      ensures isOpen == old(isOpen)
      ensures IsBlank(old(message)) ==>
        message == old(message) && messages == old(messages) && pendingReplies == old(pendingReplies)
      ensures !IsBlank(old(message)) ==>
        && messages == old(messages) + [ChatMessage(User, old(message))]
        && message == []
        && pendingReplies == old(pendingReplies) + 1
    {
      if SendIgnored(message) {
        return;
      }
      var userMessage := message;
      SendKeepsLogInvariant(messages, pendingReplies, userMessage);
      messages := messages + [ChatMessage(User, userMessage)];
      message := [];
      pendingReplies := pendingReplies + 1;
    }

    /**
      The timer callback of a send: appends the canned reply at `index`, which stands for
      `Math.floor(Math.random() * responses.length)`.
     */
    method DeliverReply(index: nat)
      requires Valid() && pendingReplies > 0
      requires index < |Responses|
      modifies this
      ensures Valid()
      ensures messages == old(messages) + [ChatMessage(Assistant, Responses[index])]
      ensures pendingReplies == old(pendingReplies) - 1
      ensures isOpen == old(isOpen) && message == old(message)
    {
      var reply := ChatMessage(Assistant, Responses[index]);
      ReplyKeepsLogInvariant(messages, pendingReplies, index);
      messages := messages + [reply];
      pendingReplies := pendingReplies - 1;
    }

    /** The document key handler: Ctrl+K or Cmd+K flips the panel, any other key does nothing. */
    method KeyDown(metaKey: bool, ctrlKey: bool, key: string)
      modifies this
      ensures isOpen == if (metaKey || ctrlKey) && key == "k" then !old(isOpen) else old(isOpen)
      ensures message == old(message) && messages == old(messages) && pendingReplies == old(pendingReplies)
    {
      if (metaKey || ctrlKey) && key == "k" {
        isOpen := !isOpen;
      }
    }

    /** The floating button: flips the panel. */
    method ToggleButton()
      modifies this
      ensures isOpen == !old(isOpen)
      ensures message == old(message) && messages == old(messages) && pendingReplies == old(pendingReplies)
    {
      isOpen := !isOpen;
    }

    /** The panel's close button. */
    method Close()
      modifies this
      ensures !isOpen
      ensures message == old(message) && messages == old(messages) && pendingReplies == old(pendingReplies)
    {
      isOpen := false;
    }
  }

  /** Two presses of Ctrl+K leave the panel as it was. */
  method ShortcutTwiceRestores(coach: Coach, ctrlKey: bool, metaKey: bool)
    requires ctrlKey || metaKey
    modifies coach
    ensures coach.isOpen == old(coach.isOpen)
  {
    coach.KeyDown(metaKey, ctrlKey, "k");
    coach.KeyDown(metaKey, ctrlKey, "k");
  }
}
