/**
 * The chat transcript component: the message quota, the send handler and the
 * streamed reply (src/components/ChatInterface.tsx).
 *
 * The state is modelled twice, on purpose: `State` and the step functions say
 * what each event does to the component's values, and the lemmas about `Run`
 * state what the component promises over a whole exchange; the class `Session`
 * holds the same values as mutable fields, and each of its methods is proved to
 * change them exactly as the matching step function says.
 *
 * Clock readings (`Date.now()`) are parameters; the SDK stream is a sequence of
 * `Chunk` events ended by one `Completed` or `Failed` event.
 */
module ChatInterface {
  import opened Wrappers
  import opened Blink
  import Text

  /** A visitor without an account may send this many messages. */
  const GuestLimit: int := 3
  /** The `maxMessages` value that means "no limit". */
  const UnlimitedMessages: int := -1
  /** The fixed framing put in front of the user's text in the generation request. */
  const PromptFraming := "You are Fire Works AI, an HR and SHRM assistant. Respond helpfully to: "
  const ModelName := "gpt-4o-mini"
  /** The assistant message appended when the generation fails. */
  const FallbackReply := "I apologize, but I'm having trouble processing your request right now. Please try again in a moment."

  // ---------------------------------------------------------------------------
  // Quota

  /** `canSendMessage`: may a send go ahead for this identity and guest counter? */
  predicate CanSendMessage(user: Option<User>, guestMessageCount: int) {
    match user
    case Some(u) => u.messageCount < u.maxMessages || u.maxMessages == UnlimitedMessages
    case None => guestMessageCount < GuestLimit
  }

  /** What `getMessageLimit` shows: '∞' or a number. */
  datatype Limit = Infinite | Finite(n: int)

  /** `getMessageLimit`. */
  function MessageLimit(user: Option<User>): Limit {
    match user
    case Some(u) => if u.maxMessages == UnlimitedMessages then Infinite else Finite(u.maxMessages)
    case None => Finite(GuestLimit)
  }

  /** `getCurrentCount`. */
  function CurrentCount(user: Option<User>, guestMessageCount: int): int {
    match user
    case Some(u) => u.messageCount
    case None => guestMessageCount
  }

  /**
   * The quota rule read off the two figures the component displays: a send is
   * allowed exactly when the shown limit is '∞' or the shown count is below it.
   */
  lemma QuotaMatchesDisplayedFigures(user: Option<User>, guestMessageCount: int)
    ensures CanSendMessage(user, guestMessageCount) <==>
      match MessageLimit(user)
      case Infinite => true
      case Finite(n) => CurrentCount(user, guestMessageCount) < n
  {
  }

  /** A guest may send while fewer than three messages were sent, and never after. */
  lemma GuestQuota(guestMessageCount: int)
    ensures CanSendMessage(None, guestMessageCount) <==> guestMessageCount < 3
  {
  }

  /** A signed-in user with an unlimited plan may always send, whatever the counters say. */
  lemma UnlimitedNeverRefused(u: User, guestMessageCount: int)
    requires u.maxMessages == -1
    ensures CanSendMessage(Some(u), guestMessageCount)
  {
  }

  /**
   * Signing in replaces the guest rule by the user's own figures: the guest
   * counter, however high, no longer matters.
   */
  lemma SignedInIgnoresGuestCounter(u: User, g1: int, g2: int)
    ensures CanSendMessage(Some(u), g1) == CanSendMessage(Some(u), g2)
    ensures CanSendMessage(Some(u), g1) <==> u.messageCount < u.maxMessages || u.maxMessages == -1
  {
  }

  // ---------------------------------------------------------------------------
  // State and events

  /** The component's state; `fullResponse` is the accumulator local to the send in flight. */
  datatype State = State(
    messages: seq<Message>,
    input: string,
    isLoading: bool,
    guestMessageCount: nat,
    streamingMessage: string,
    fullResponse: string)

  /** The generation request handed to the SDK, for the user's trimmed text. */
  datatype Request = Request(text: string, model: string) {
    /** The prompt string the SDK receives: the fixed framing, then the text. */
    function Prompt(): string {
      PromptFraming + text
    }
  }

  /** How a press of "send" ended: ignored, refused with a remedy, or dispatched. */
  datatype SendOutcome = Ignored | AuthRequired | UpgradeRequired | Dispatched(request: Request)

  datatype Sent = Sent(state: State, outcome: SendOutcome)

  /** The canned assistant message the transcript starts with, stamped a second before mount. */
  function Greeting(text: string, now: int): Message {
    Message("1", text, AssistantRole, now - 1000, None)
  }

  function Initial(greeting: string, now: int): State {
    State([Greeting(greeting, now)], "", false, 0, "", "")
  }

  function UserMessage(content: string, user: Option<User>, idClock: nat, stampClock: int): Message {
    var author := match user case Some(u) => Some(u.id) case None => None;
    Message(Text.NatToDecimal(idClock), content, UserRole, stampClock, author)
  }

  /** An assistant reply; its id is the clock reading plus one. */
  function AssistantMessage(content: string, idClock: nat, stampClock: int): Message {
    Message(Text.NatToDecimal(idClock + 1), content, AssistantRole, stampClock, None)
  }

  /** The send handler is not entered: blank input, or a send already in flight. */
  predicate SendIgnored(s: State) {
    Text.Trim(s.input) == [] || s.isLoading
  }

  /** The send handler would dispatch a request. */
  predicate SendAccepted(s: State, user: Option<User>) {
    !SendIgnored(s) && CanSendMessage(user, s.guestMessageCount)
  }

  /** `handleSendMessage` up to and including the dispatch of the request. */
  function SendStep(s: State, user: Option<User>, idClock: nat, stampClock: int): Sent {
    if SendIgnored(s) then
      Sent(s, Ignored)
    else if !CanSendMessage(user, s.guestMessageCount) then
      Sent(s, if user.None? then AuthRequired else UpgradeRequired)
    else
      var text := Text.Trim(s.input);
      var counted := if user.None? then s.guestMessageCount + 1 else s.guestMessageCount;
      var next := s.(
        messages := s.messages + [UserMessage(text, user, idClock, stampClock)],
        input := "",
        isLoading := true,
        streamingMessage := "",
        guestMessageCount := counted,
        fullResponse := "");
      Sent(next, Dispatched(Request(text, ModelName)))
  }

  /** The stream callback: the chunk is appended to the accumulator, which is then shown. */
  function ChunkStep(s: State, chunk: string): State {
    var full := s.fullResponse + chunk;
    s.(fullResponse := full, streamingMessage := full)
  }

  /** The stream ended normally: the accumulated text becomes one assistant message. */
  function CompleteStep(s: State, idClock: nat, stampClock: int): State {
    s.(
      messages := s.messages + [AssistantMessage(s.fullResponse, idClock, stampClock)],
      streamingMessage := "",
      isLoading := false)
  }

  /** The stream failed: the fixed apology is appended; the streaming text is left as it was. */
  function FailStep(s: State, idClock: nat, stampClock: int): State {
    s.(
      messages := s.messages + [AssistantMessage(FallbackReply, idClock, stampClock)],
      isLoading := false)
  }

  /** The events the component reacts to. */
  datatype Event =
    | Typed(text: string)
    | Pressed(user: Option<User>, idClock: nat, stampClock: int)
    | Chunk(chunk: string)
    | Completed(idClock: nat, stampClock: int)
    | Failed(idClock: nat, stampClock: int)

  /** One event; every event either keeps the transcript or appends to it. */
  function Step(s: State, e: Event): (r: State)
    ensures s.messages <= r.messages
  {
    match e
    case Typed(t) => s.(input := t)
    case Pressed(u, i, c) => SendStep(s, u, i, c).state
    case Chunk(c) => ChunkStep(s, c)
    case Completed(i, c) => CompleteStep(s, i, c)
    case Failed(i, c) => FailStep(s, i, c)
  }

  /** The events in order. */
  function Run(s: State, es: seq<Event>): State
    decreases |es|
  {
    if es == [] then s else Run(Step(s, es[0]), es[1..])
  }

  function ChunkEvents(chunks: seq<string>): (es: seq<Event>)
    ensures |es| == |chunks|
  {
    if chunks == [] then [] else [Chunk(chunks[0])] + ChunkEvents(chunks[1..])
  }

  /** The in-order concatenation of the chunks. */
  function Concat(chunks: seq<string>): string {
    if chunks == [] then "" else chunks[0] + Concat(chunks[1..])
  }

  // ---------------------------------------------------------------------------
  // The send handler, one press at a time

  /** A blank or re-entrant press changes nothing at all and signals nothing. */
  lemma IgnoredSendChangesNothing(s: State, user: Option<User>, idClock: nat, stampClock: int)
    requires Text.AllWhitespace(s.input) || s.isLoading
    ensures SendStep(s, user, idClock, stampClock) == Sent(s, Ignored)
  {
  }

  /**
   * A press refused by the quota leaves the state untouched and asks for sign-in
   * when there is no user, for an upgrade otherwise.
   */
  lemma RefusedSendChangesNothing(s: State, user: Option<User>, idClock: nat, stampClock: int)
    requires !SendIgnored(s) && !CanSendMessage(user, s.guestMessageCount)
    ensures SendStep(s, user, idClock, stampClock).state == s
    ensures SendStep(s, user, idClock, stampClock).outcome == if user.None? then AuthRequired else UpgradeRequired
  {
  }

  /**
   * An accepted press appends exactly one user message holding the trimmed input,
   * clears the input, marks the send in flight, empties the streaming text and
   * the accumulator, counts one more guest message when there is no user, and
   * requests a reply to the framed trimmed input.
   */
  lemma AcceptedSend(s: State, user: Option<User>, idClock: nat, stampClock: int)
    requires SendAccepted(s, user)
    ensures var r := SendStep(s, user, idClock, stampClock);
      && r.outcome == Dispatched(Request(Text.Trim(s.input), ModelName))
      && r.outcome.request.Prompt() == PromptFraming + Text.Trim(s.input)
      && r.state.messages == s.messages + [UserMessage(Text.Trim(s.input), user, idClock, stampClock)]
      && r.state.messages[|s.messages|].role == UserRole
      && r.state.messages[|s.messages|].userId == (if user.Some? then Some(user.value.id) else None)
      && r.state.input == ""
      && r.state.isLoading
      && r.state.streamingMessage == "" && r.state.fullResponse == ""
      && r.state.guestMessageCount == s.guestMessageCount + (if user.None? then 1 else 0)
  {
  }

  /** The send button is enabled exactly when pressing it would dispatch a request. */
  predicate SendButtonDisabled(s: State, user: Option<User>) {
    Text.Trim(s.input) == [] || !CanSendMessage(user, s.guestMessageCount) || s.isLoading
  }

  lemma SendButtonMatchesHandler(s: State, user: Option<User>, idClock: nat, stampClock: int)
    ensures !SendButtonDisabled(s, user) <==> SendStep(s, user, idClock, stampClock).outcome.Dispatched?
  {
  }

  /** The textarea: disabled while the quota is used up or a reply is in flight. */
  predicate TextareaDisabled(s: State, user: Option<User>) {
    !CanSendMessage(user, s.guestMessageCount) || s.isLoading
  }

  /**
   * The handler's refusals are out of reach of the controls: a press the quota
   * refuses can only come while both the send button and the textarea (whose
   * Enter key also calls the handler) are disabled.
   */
  lemma RefusalOnlyBehindDisabledControls(s: State, user: Option<User>, idClock: nat, stampClock: int)
    ensures var o := SendStep(s, user, idClock, stampClock).outcome;
      (o.AuthRequired? || o.UpgradeRequired?) ==> SendButtonDisabled(s, user) && TextareaDisabled(s, user)
  {
  }

  // ---------------------------------------------------------------------------
  // Whole runs

  lemma {:induction false} RunAppend(s: State, a: seq<Event>, b: seq<Event>)
    ensures Run(s, a + b) == Run(Run(s, a), b)
    decreases |a|
  {
    if a != [] {
      assert (a + b)[0] == a[0];
      assert (a + b)[1..] == a[1..] + b;
      RunAppend(Step(s, a[0]), a[1..], b);
    } else {
      assert a + b == b;
    }
  }

  /** Every update is an append: the transcript only ever grows. */
  lemma {:induction false} MessagesOnlyGrow(s: State, es: seq<Event>)
    ensures s.messages <= Run(s, es).messages
    decreases |es|
  {
    if es != [] {
      MessagesOnlyGrow(Step(s, es[0]), es[1..]);
    }
  }

  /**
   * Delivering chunks appends each, in order, to the accumulator, shows the
   * accumulator as the streaming text, and changes nothing else.
   */
  lemma {:induction false} ChunksAccumulate(s: State, chunks: seq<string>)
    ensures Run(s, ChunkEvents(chunks)) == s.(
      fullResponse := s.fullResponse + Concat(chunks),
      streamingMessage := if chunks == [] then s.streamingMessage else s.fullResponse + Concat(chunks))
    decreases |chunks|
  {
    if chunks != [] {
      var es := ChunkEvents(chunks);
      assert es[0] == Chunk(chunks[0]) && es[1..] == ChunkEvents(chunks[1..]);
      ChunksAccumulate(ChunkStep(s, chunks[0]), chunks[1..]);
      assert s.fullResponse + chunks[0] + Concat(chunks[1..]) == s.fullResponse + Concat(chunks);
    }
  }

  /** The state after an accepted press and the chunks delivered so far. */
  function MidStream(s: State, user: Option<User>, idClock: nat, stampClock: int, chunks: seq<string>): State {
    s.(
      messages := s.messages + [UserMessage(Text.Trim(s.input), user, idClock, stampClock)],
      input := "",
      isLoading := true,
      guestMessageCount := s.guestMessageCount + (if user.None? then 1 else 0),
      streamingMessage := Concat(chunks),
      fullResponse := Concat(chunks))
  }

  /**
   * Mid-stream: after an accepted press and some chunks, the streaming text is
   * the concatenation of the chunks so far, the send is still in flight, and
   * the transcript holds only the new user message, not the partial reply.
   */
  lemma Streaming(s: State, user: Option<User>, idClock: nat, stampClock: int, chunks: seq<string>)
    requires SendAccepted(s, user)
    ensures Run(s, [Pressed(user, idClock, stampClock)] + ChunkEvents(chunks)) == MidStream(s, user, idClock, stampClock, chunks)
    ensures var r := MidStream(s, user, idClock, stampClock, chunks);
      && r.streamingMessage == Concat(chunks)
      && r.isLoading
      && r.messages == s.messages + [UserMessage(Text.Trim(s.input), user, idClock, stampClock)]
  {
    var sent := SendStep(s, user, idClock, stampClock).state;
    assert Run(s, [Pressed(user, idClock, stampClock)]) == sent;
    RunAppend(s, [Pressed(user, idClock, stampClock)], ChunkEvents(chunks));
    ChunksAccumulate(sent, chunks);
    assert "" + Concat(chunks) == Concat(chunks);
  }

  /**
   * A whole successful exchange appends exactly the user message and one assistant
   * message holding every chunk in order; afterwards nothing is streaming or in flight.
   */
  lemma CompletedExchange(
    s: State, user: Option<User>, idClock: nat, stampClock: int,
    chunks: seq<string>, doneIdClock: nat, doneStampClock: int)
    requires SendAccepted(s, user)
    ensures var r := Run(s, [Pressed(user, idClock, stampClock)] + ChunkEvents(chunks) + [Completed(doneIdClock, doneStampClock)]);
      && r.messages == s.messages + [
        UserMessage(Text.Trim(s.input), user, idClock, stampClock),
        AssistantMessage(Concat(chunks), doneIdClock, doneStampClock)]
      && r.streamingMessage == ""
      && !r.isLoading
      && r.input == ""
      && r.guestMessageCount == s.guestMessageCount + (if user.None? then 1 else 0)
  {
    var head := [Pressed(user, idClock, stampClock)] + ChunkEvents(chunks);
    var mid := MidStream(s, user, idClock, stampClock, chunks);
    Streaming(s, user, idClock, stampClock, chunks);
    RunAppend(s, head, [Completed(doneIdClock, doneStampClock)]);
    assert Run(mid, [Completed(doneIdClock, doneStampClock)]) == CompleteStep(mid, doneIdClock, doneStampClock);
  }

  /**
   * A whole failed exchange appends exactly the user message and the fixed
   * apology, however much text had streamed; the guest message stays counted,
   * and the partial text is left in the streaming view.
   */
  lemma FailedExchange(
    s: State, user: Option<User>, idClock: nat, stampClock: int,
    chunks: seq<string>, failIdClock: nat, failStampClock: int)
    requires SendAccepted(s, user)
    ensures var r := Run(s, [Pressed(user, idClock, stampClock)] + ChunkEvents(chunks) + [Failed(failIdClock, failStampClock)]);
      && r.messages == s.messages + [
        UserMessage(Text.Trim(s.input), user, idClock, stampClock),
        AssistantMessage(FallbackReply, failIdClock, failStampClock)]
      && r.streamingMessage == Concat(chunks)
      && !r.isLoading
      && r.input == ""
      && r.guestMessageCount == s.guestMessageCount + (if user.None? then 1 else 0)
  {
    var head := [Pressed(user, idClock, stampClock)] + ChunkEvents(chunks);
    var mid := MidStream(s, user, idClock, stampClock, chunks);
    Streaming(s, user, idClock, stampClock, chunks);
    RunAppend(s, head, [Failed(failIdClock, failStampClock)]);
    assert Run(mid, [Failed(failIdClock, failStampClock)]) == FailStep(mid, failIdClock, failStampClock);
  }

  // ---------------------------------------------------------------------------
  // Scenarios

  /** Typing a message, pressing send, receiving `chunks`, then the stream ending as `ok` says. */
  function Exchange(text: string, user: Option<User>, chunks: seq<string>, ok: bool, clock: nat): seq<Event> {
    [Typed(text), Pressed(user, clock, clock)] + ChunkEvents(chunks)
      + [if ok then Completed(clock, clock) else Failed(clock, clock)]
  }

  /** One exchange that the quota lets through adds two messages and counts one guest message. */
  lemma ExchangeCounts(s: State, text: string, user: Option<User>, chunks: seq<string>, ok: bool, clock: nat)
    requires !s.isLoading && !Text.AllWhitespace(text) && CanSendMessage(user, s.guestMessageCount)
    ensures var r := Run(s, Exchange(text, user, chunks, ok, clock));
      && |r.messages| == |s.messages| + 2
      && !r.isLoading
      && r.guestMessageCount == s.guestMessageCount + (if user.None? then 1 else 0)
  {
    var t := s.(input := text);
    var rest := [Pressed(user, clock, clock)] + ChunkEvents(chunks)
      + [if ok then Completed(clock, clock) else Failed(clock, clock)];
    assert Exchange(text, user, chunks, ok, clock) == [Typed(text)] + rest;
    RunAppend(s, [Typed(text)], rest);
    if ok {
      CompletedExchange(t, user, clock, clock, chunks, clock, clock);
    } else {
      FailedExchange(t, user, clock, clock, chunks, clock, clock);
    }
  }

  /**
   * A guest's three exchanges, whatever their replies, use up the quota: a
   * fourth press asks for sign-in and leaves the six new messages as they are.
   */
  lemma GuestFourthSendAsksForSignIn(
    s: State, t1: string, t2: string, t3: string, t4: string,
    c1: seq<string>, c2: seq<string>, c3: seq<string>, ok1: bool, ok2: bool, ok3: bool, clock: nat)
    requires s.guestMessageCount == 0 && !s.isLoading
    requires !Text.AllWhitespace(t1) && !Text.AllWhitespace(t2) && !Text.AllWhitespace(t3) && !Text.AllWhitespace(t4)
    ensures var r := Run(s, Exchange(t1, None, c1, ok1, clock) + Exchange(t2, None, c2, ok2, clock)
                          + Exchange(t3, None, c3, ok3, clock) + [Typed(t4)]);
      && |r.messages| == |s.messages| + 6
      && r.guestMessageCount == 3
      && SendStep(r, None, clock, clock) == Sent(r, AuthRequired)
  {
    var e1 := Exchange(t1, None, c1, ok1, clock);
    var e2 := Exchange(t2, None, c2, ok2, clock);
    var e3 := Exchange(t3, None, c3, ok3, clock);
    ExchangeCounts(s, t1, None, c1, ok1, clock);
    var r1 := Run(s, e1);
    ExchangeCounts(r1, t2, None, c2, ok2, clock);
    var r2 := Run(r1, e2);
    ExchangeCounts(r2, t3, None, c3, ok3, clock);
    var r3 := Run(r2, e3);
    RunAppend(s, e1, e2);
    RunAppend(s, e1 + e2, e3);
    RunAppend(s, e1 + e2 + e3, [Typed(t4)]);
  }

  /** A signed-in user at 50 of 50 messages is sent to the upgrade flow. */
  lemma FullFreePlanAsksForUpgrade(s: State, u: User, idClock: nat, stampClock: int)
    requires !SendIgnored(s) && u.messageCount == 50 && u.maxMessages == 50
    ensures SendStep(s, Some(u), idClock, stampClock) == Sent(s, UpgradeRequired)
  {
  }

  /** Chunks "Hel" and "lo" then success: the reply in the transcript reads "Hello". */
  lemma HelloIsAssembled(s: State, user: Option<User>, clock: nat)
    requires SendAccepted(s, user)
    ensures var r := Run(s, [Pressed(user, clock, clock)] + ChunkEvents(["Hel", "lo"]) + [Completed(clock, clock)]);
      |r.messages| == |s.messages| + 2 && r.messages[|s.messages| + 1].content == "Hello"
  {
    CompletedExchange(s, user, clock, clock, ["Hel", "lo"], clock, clock);
    assert Concat(["Hel", "lo"]) == "Hel" + Concat(["lo"]);
  }

  /** Chunk "Hel" then failure: the transcript ends with the apology, never with "Hel". */
  lemma PartialReplyIsDiscarded(s: State, user: Option<User>, clock: nat)
    requires SendAccepted(s, user)
    ensures var r := Run(s, [Pressed(user, clock, clock)] + ChunkEvents(["Hel"]) + [Failed(clock, clock)]);
      && |r.messages| == |s.messages| + 2
      && r.messages[|s.messages| + 1].content == FallbackReply
      && r.messages[|s.messages| + 1].content != "Hel"
  {
    FailedExchange(s, user, clock, clock, ["Hel"], clock, clock);
  }

  lemma {:induction false} ConcatSnoc(chunks: seq<string>, chunk: string)
    ensures Concat(chunks + [chunk]) == Concat(chunks) + chunk
    decreases |chunks|
  {
    if chunks != [] {
      assert (chunks + [chunk])[1..] == chunks[1..] + [chunk];
      ConcatSnoc(chunks[1..], chunk);
    }
  }

  // ---------------------------------------------------------------------------
  // The component as mutable state

  class Session {
    var messages: seq<Message>
    var input: string
    var isLoading: bool
    var guestMessageCount: nat
    var streamingMessage: string
    var fullResponse: string
    /** The chunks delivered so far to the send in flight (or to the last send). */
    ghost var delivered: seq<string>

    /** While a send is in flight, the accumulator and the streaming text are the delivered chunks. */
    ghost predicate Valid()
      reads this
    {
      isLoading ==> fullResponse == Concat(delivered) && streamingMessage == fullResponse
    }

    function View(): State
      reads this
    {
      State(messages, input, isLoading, guestMessageCount, streamingMessage, fullResponse)
    }

    constructor (greeting: string, now: int)
      ensures Valid() && View() == Initial(greeting, now) && delivered == []
    {
      messages := [Greeting(greeting, now)];
      input := "";
      isLoading := false;
      guestMessageCount := 0;
      streamingMessage := "";
      fullResponse := "";
      delivered := [];
    }

    /** The text area's change handler. */
    method SetInput(text: string)
      requires Valid()
      modifies this`input
      ensures Valid() && View() == Step(old(View()), Typed(text))
    {
      input := text;
    }

    /** `handleSendMessage` up to the dispatch; the outcome tells the caller what to do next. */
    method Send(user: Option<User>, idClock: nat, stampClock: int) returns (outcome: SendOutcome)
      requires Valid()
      modifies this
      ensures Valid()
      ensures Sent(View(), outcome) == SendStep(old(View()), user, idClock, stampClock)
      ensures delivered == if outcome.Dispatched? then [] else old(delivered)
    {
      ghost var before := View();
      var currentInput := Text.Trim(input);
      ghost var expected := SendStep(before, user, idClock, stampClock);
      if currentInput == [] || isLoading {
        assert expected == Sent(before, Ignored);
        return Ignored;
      }
      if !CanSendMessage(user, guestMessageCount) {
        if user.None? {
          outcome := AuthRequired;
        } else {
          outcome := UpgradeRequired;
        }
        assert expected == Sent(before, outcome);
        return;
      }
      assert expected.state.messages == messages + [UserMessage(currentInput, user, idClock, stampClock)];
      var userMessage := UserMessage(currentInput, user, idClock, stampClock);
      messages := messages + [userMessage];
      input := "";
      isLoading := true;
      streamingMessage := "";
      if user.None? {
        guestMessageCount := guestMessageCount + 1;
      }
      fullResponse := "";
      delivered := [];
      outcome := Dispatched(Request(currentInput, ModelName));
      assert View() == expected.state;
    }

    /** The stream callback for one chunk of the send in flight. */
    method Chunk(chunk: string)
      requires Valid() && isLoading
      modifies this
      ensures Valid() && View() == ChunkStep(old(View()), chunk)
      ensures delivered == old(delivered) + [chunk]
      ensures streamingMessage == Concat(delivered)
    {
      fullResponse := fullResponse + chunk;
      streamingMessage := fullResponse;
      ConcatSnoc(delivered, chunk);
      delivered := delivered + [chunk];
    }

    /** The stream of the send in flight ended normally. */
    method Complete(idClock: nat, stampClock: int)
      requires Valid() && isLoading
      modifies this
      ensures Valid() && View() == CompleteStep(old(View()), idClock, stampClock)
      ensures messages == old(messages) + [AssistantMessage(Concat(delivered), idClock, stampClock)]
      ensures streamingMessage == "" && !isLoading && delivered == old(delivered)
    {
      var assistantMessage := AssistantMessage(fullResponse, idClock, stampClock);
      messages := messages + [assistantMessage];
      streamingMessage := "";
      isLoading := false;
    }

    /** The stream of the send in flight failed, at dispatch or part-way. */
    method Fail(idClock: nat, stampClock: int)
      requires Valid() && isLoading
      modifies this
      ensures Valid() && View() == FailStep(old(View()), idClock, stampClock)
      ensures messages == old(messages) + [AssistantMessage(FallbackReply, idClock, stampClock)]
      ensures streamingMessage == Concat(delivered) && !isLoading && delivered == old(delivered)
    {
      var assistantMessage := AssistantMessage(FallbackReply, idClock, stampClock);
      messages := messages + [assistantMessage];
      isLoading := false;
    }
  }
}
