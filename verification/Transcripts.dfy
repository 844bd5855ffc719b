/**
 * The conversation of a run and the form it is saved in (application/employee_runtime/transcript.py,
 * domain/llm/models.py, domain/tasks/plan.py).
 *
 * A saved dictionary is a record whose fields may be absent. Reading fills the defaults in; only an unknown role is
 * an error. What comes back is what was written, except for the pieces `Normal` takes away.
 */
module Transcripts {
  import opened Wrappers

  datatype Role = System | User | Assistant | Tool

  type Arguments = map<string, string>

  datatype ToolCall = ToolCall(id: string, name: string, arguments: Arguments)

  datatype Message = Message(
    role: Role, content: string, name: Option<string>, toolCallId: Option<string>,
    images: seq<string>, toolCalls: seq<ToolCall>)

  function SystemMessage(content: string): Message {
    Message(System, content, None, None, [], [])
  }

  function UserMessage(content: string): Message {
    Message(User, content, None, None, [], [])
  }

  function AssistantMessage(content: string, calls: seq<ToolCall>): Message {
    Message(Assistant, content, None, None, [], calls)
  }

  function ToolMessage(content: string, callId: string): Message {
    Message(Tool, content, None, Some(callId), [], [])
  }

  /** What an observation says about its call; `refused` is whether the key is there. */
  datatype Details = Details(tool: string, arguments: Arguments, refused: bool)

  datatype Observation = Observation(step: int, summary: string, succeeded: bool, details: Details)

  datatype Transcript = Transcript(messages: seq<Message>, observations: seq<Observation>, cost: real, steps: int) {
    function WithMessage(m: Message): Transcript {
      this.(messages := messages + [m])
    }

    function WithObservation(o: Observation): Transcript {
      this.(observations := observations + [o])
    }

    function WithSpend(amount: real): Transcript {
      this.(cost := cost + amount)
    }

    function Advanced(): Transcript {
      this.(steps := steps + 1)
    }
  }

  const EMPTY_TRANSCRIPT := Transcript([], [], 0.0, 0)

  datatype RunState = RunState(stage: string, transcript: Transcript, attempt: int, feedback: seq<string>)

  // ----- The saved form -----

  datatype SavedCall = SavedCall(id: Option<string>, name: Option<string>, arguments: Option<Arguments>)

  datatype SavedMessage = SavedMessage(
    role: string, content: Option<string>, name: Option<string>, toolCallId: Option<string>,
    toolCalls: Option<seq<SavedCall>>)

  datatype SavedObservation = SavedObservation(
    step: Option<int>, summary: Option<string>, succeeded: Option<bool>, details: Option<Details>)

  datatype SavedTranscript = SavedTranscript(
    messages: Option<seq<SavedMessage>>, observations: Option<seq<SavedObservation>>,
    cost: Option<real>, steps: Option<int>)

  datatype SavedRunState = SavedRunState(
    stage: Option<string>, attempt: Option<int>, feedback: Option<seq<string>>, transcript: Option<SavedTranscript>)

  /** The empty dictionary a new task starts with. */
  const NOTHING_SAVED := SavedRunState(None, None, None, None)

  function GetOr<T>(field: Option<T>, default: T): T {
    if field.Some? then field.value else default
  }

  function RoleName(role: Role): string {
    match role
    case System => "system"
    case User => "user"
    case Assistant => "assistant"
    case Tool => "tool"
  }

  function ParseRole(name: string): Option<Role> {
    if name == "system" then Some(System)
    else if name == "user" then Some(User)
    else if name == "assistant" then Some(Assistant)
    else if name == "tool" then Some(Tool)
    else None
  }

  /** A field that is written only when it is not empty. */
  function IfFilled(field: Option<string>): Option<string> {
    if field == Some("") then None else field
  }

  function SaveCall(call: ToolCall): SavedCall {
    SavedCall(Some(call.id), Some(call.name), Some(call.arguments))
  }

  function LoadCall(raw: SavedCall): ToolCall {
    ToolCall(GetOr(raw.id, ""), GetOr(raw.name, ""), GetOr(raw.arguments, map[]))
  }

  function SaveCalls(calls: seq<ToolCall>): seq<SavedCall> {
    seq(|calls|, k requires 0 <= k < |calls| => SaveCall(calls[k]))
  }

  function LoadCalls(raw: seq<SavedCall>): seq<ToolCall> {
    seq(|raw|, k requires 0 <= k < |raw| => LoadCall(raw[k]))
  }

  function SaveMessage(m: Message): SavedMessage {
    SavedMessage(RoleName(m.role), Some(m.content), IfFilled(m.name), IfFilled(m.toolCallId),
                 if m.toolCalls == [] then None else Some(SaveCalls(m.toolCalls)))
  }

  function LoadMessage(raw: SavedMessage): Option<Message> {
    match ParseRole(raw.role)
    case None => None
    case Some(role) =>
      Some(Message(role, GetOr(raw.content, ""), raw.name, raw.toolCallId, [], LoadCalls(GetOr(raw.toolCalls, []))))
  }

  function SaveMessages(messages: seq<Message>): seq<SavedMessage> {
    seq(|messages|, k requires 0 <= k < |messages| => SaveMessage(messages[k]))
  }

  function LoadMessages(raw: seq<SavedMessage>): Option<seq<Message>> {
    if raw == [] then Some([])
    else
      match (LoadMessage(raw[0]), LoadMessages(raw[1..]))
      case (Some(first), Some(rest)) => Some([first] + rest)
      case _ => None
  }

  function SaveObservation(o: Observation): SavedObservation {
    SavedObservation(Some(o.step), Some(o.summary), Some(o.succeeded), Some(o.details))
  }

  function LoadObservation(raw: SavedObservation): Observation {
    Observation(GetOr(raw.step, 0), GetOr(raw.summary, ""), GetOr(raw.succeeded, true),
                GetOr(raw.details, Details("", map[], false)))
  }

  function SaveObservations(observations: seq<Observation>): seq<SavedObservation> {
    seq(|observations|, k requires 0 <= k < |observations| => SaveObservation(observations[k]))
  }

  function LoadObservations(raw: seq<SavedObservation>): seq<Observation> {
    seq(|raw|, k requires 0 <= k < |raw| => LoadObservation(raw[k]))
  }

  function SaveTranscript(t: Transcript): SavedTranscript {
    SavedTranscript(Some(SaveMessages(t.messages)), Some(SaveObservations(t.observations)), Some(t.cost), Some(t.steps))
  }

  function LoadTranscript(raw: Option<SavedTranscript>): Option<Transcript> {
    match raw
    case None => Some(EMPTY_TRANSCRIPT)
    case Some(saved) =>
      match LoadMessages(GetOr(saved.messages, []))
      case None => None
      case Some(messages) =>
        Some(Transcript(messages, LoadObservations(GetOr(saved.observations, [])),
                        GetOr(saved.cost, 0.0), GetOr(saved.steps, 0)))
  }

  function SaveRunState(s: RunState): SavedRunState {
    SavedRunState(Some(s.stage), Some(s.attempt), Some(s.feedback), Some(SaveTranscript(s.transcript)))
  }

  function LoadRunState(raw: SavedRunState): Option<RunState> {
    match LoadTranscript(raw.transcript)
    case None => None
    case Some(transcript) =>
      Some(RunState(GetOr(raw.stage, "PLANNING"), transcript, GetOr(raw.attempt, 1), GetOr(raw.feedback, [])))
  }

  // ----- Round trips -----

  /** What saving loses: pictures, and names and call ids that are empty. */
  function Normal(m: Message): Message {
    m.(images := [], name := IfFilled(m.name), toolCallId := IfFilled(m.toolCallId))
  }

  predicate Exact(m: Message) {
    m.images == [] && m.name != Some("") && m.toolCallId != Some("")
  }

  ghost predicate ExactMessages(messages: seq<Message>) {
    forall k :: 0 <= k < |messages| ==> Exact(messages[k])
  }

  function NormalMessages(messages: seq<Message>): seq<Message> {
    seq(|messages|, k requires 0 <= k < |messages| => Normal(messages[k]))
  }

  lemma MessageComesBack(m: Message)
    ensures LoadMessage(SaveMessage(m)) == Some(Normal(m))
  {
    assert LoadCalls(SaveCalls(m.toolCalls)) == m.toolCalls;
  }

  lemma {:induction false} MessagesComeBack(messages: seq<Message>)
    ensures LoadMessages(SaveMessages(messages)) == Some(NormalMessages(messages))
  {
    if messages == [] {
      assert SaveMessages(messages) == [] && NormalMessages(messages) == [];
    } else {
      MessageComesBack(messages[0]);
      MessagesComeBack(messages[1..]);
      var raw := SaveMessages(messages);
      assert raw[0] == SaveMessage(messages[0]) && raw[1..] == SaveMessages(messages[1..]);
      assert NormalMessages(messages) == [Normal(messages[0])] + NormalMessages(messages[1..]);
    }
  }

  /** A saved run state is read back with its messages in normal form and everything else as it was: exactly, when and
      only when no message carries a picture, an empty name or an empty call id. */
  lemma RunStateComesBack(s: RunState)
    ensures LoadRunState(SaveRunState(s)) ==
            Some(s.(transcript := s.transcript.(messages := NormalMessages(s.transcript.messages))))
    ensures LoadRunState(SaveRunState(s)) == Some(s) <==> ExactMessages(s.transcript.messages)
  {
    var messages := s.transcript.messages;
    MessagesComeBack(messages);
    assert LoadObservations(SaveObservations(s.transcript.observations)) == s.transcript.observations;
    if NormalMessages(messages) == messages {
      forall k | 0 <= k < |messages| ensures Exact(messages[k]) {
        assert messages[k] == Normal(messages[k]);
      }
    } else {
      assert !ExactMessages(messages) by {
        var k :| 0 <= k < |messages| && NormalMessages(messages)[k] != messages[k];
      }
    }
  }

  /** A task that never ran is read as a run about to be planned for the first time. */
  lemma NothingSavedIsAFreshRun()
    ensures LoadRunState(NOTHING_SAVED) == Some(RunState("PLANNING", EMPTY_TRANSCRIPT, 1, []))
  {
  }

  // ----- Complete exchanges -----

  /** The replies to a batch of calls: one each, same ids, same order. */
  ghost predicate Replies(messages: seq<Message>, calls: seq<ToolCall>) {
    && |messages| == |calls|
    && forall k :: 0 <= k < |calls| ==> messages[k].role == Tool && messages[k].toolCallId == Some(calls[k].id)
  }

  /** A message and the replies it calls for. */
  function ExchangeLength(m: Message): nat {
    1 + if m.role == Assistant then |m.toolCalls| else 0
  }

  /** The messages begin with a complete exchange: not with a reply, and with every reply to what is asked first. */
  ghost predicate BeginsComplete(messages: seq<Message>) {
    && messages != [] && messages[0].role != Tool
    && ExchangeLength(messages[0]) <= |messages|
    && Replies(messages[1..ExchangeLength(messages[0])], messages[0].toolCalls[..ExchangeLength(messages[0]) - 1])
  }

  /** Every assistant message that asks for tools is followed at once by its replies, and replies stand nowhere else. */
  ghost predicate Complete(messages: seq<Message>) {
    messages == [] || (BeginsComplete(messages) && Complete(messages[ExchangeLength(messages[0])..]))
  }

  lemma BeginningStays(a: seq<Message>, b: seq<Message>)
    requires BeginsComplete(a)
    ensures 1 <= ExchangeLength(a[0]) <= |a|
    ensures BeginsComplete(a + b) && (a + b)[ExchangeLength(a[0])..] == a[ExchangeLength(a[0])..] + b
  {
    var n := ExchangeLength(a[0]);
    assert (a + b)[1..n] == a[1..n];
  }

  lemma {:induction false} CompleteAppend(a: seq<Message>, b: seq<Message>)
    requires Complete(a) && Complete(b)
    ensures Complete(a + b)
    decreases |a|
  {
    hide BeginsComplete, ExchangeLength;
    if a == [] {
      assert a + b == b;
    } else {
      BeginningStays(a, b);
      CompleteAppend(a[ExchangeLength(a[0])..], b);
    }
  }

  /** One assistant message with some of its replies. */
  lemma ExchangeIsComplete(first: Message, replies: seq<Message>)
    requires first.role == Assistant && Replies(replies, first.toolCalls)
    ensures Complete([first] + replies)
  {
    var all := [first] + replies;
    assert all[1..|replies| + 1] == replies && all[|replies| + 1..] == [];
    assert first.toolCalls[..|replies|] == first.toolCalls;
  }

  lemma PlainIsComplete(m: Message)
    requires m.role != Tool && (m.role == Assistant ==> m.toolCalls == [])
    ensures Complete([m])
  {
    assert [m][1..] == [] && [m][1..1] == [] && m.toolCalls[..0] == [];
  }

  /** Cut short, an exchange is not complete. */
  lemma {:induction false} CutShortIsIncomplete(done: seq<Message>, first: Message, replies: seq<Message>)
    requires Complete(done) && first.role == Assistant && |replies| < |first.toolCalls|
    ensures !Complete(done + ([first] + replies))
    decreases |done|
  {
    if done == [] {
      assert done + ([first] + replies) == [first] + replies;
    } else {
      BeginningStays(done, [first] + replies);
      CutShortIsIncomplete(done[ExchangeLength(done[0])..], first, replies);
    }
  }

  /** What a saved form without some of its fields is read as: nothing said, nothing called, a call that succeeded, a task
      about to be planned for the first time. */
  lemma MissingFieldsAreRead()
    ensures LoadMessage(SavedMessage("tool", None, None, None, None)) == Some(Message(Tool, "", None, None, [], []))
    ensures LoadCall(SavedCall(None, None, None)) == ToolCall("", "", map[])
    ensures LoadObservation(SavedObservation(None, None, None, None)) == Observation(0, "", true, Details("", map[], false))
    ensures LoadTranscript(Some(SavedTranscript(None, None, None, None))) == Some(Transcript([], [], 0.0, 0))
    ensures LoadTranscript(None) == Some(Transcript([], [], 0.0, 0))
    ensures LoadRunState(SavedRunState(None, None, None, None)) == Some(RunState("PLANNING", EMPTY_TRANSCRIPT, 1, []))
  {
    assert LoadCalls([]) == [] && LoadObservations([]) == [];
  }
}
