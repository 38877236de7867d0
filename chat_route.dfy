/**
 * The server side of one chat turn, app/src/app/api/chat/route.ts.
 *
 * The provider's streamed reply is an input sequence of events.  The route
 * forwards text deltas at once, buffers tool-argument fragments, parses the
 * buffer when a tool block stops, and at `message_stop`, if an update was
 * parsed, makes one follow-up request whose text it forwards too.  Every
 * client event is framed as a Server-Sent Events `data:` line followed by a
 * blank line (section 9.2 of the HTML Living Standard).
 *
 * `JSON.parse` is the parameter `parse`; `JSON.stringify` of a client event
 * is the parameter `encode`; the provider is the `Reply` passed in for the
 * first request and the function `followUp` for follow-up requests.  A
 * thrown exception is part of a `Reply`: the stream ends by throwing after
 * delivering its events.
 */
module ChatRoute {
  import opened Wrappers
  import opened CharacterTypes

  // -----------------------------------------------------------------------
  // Provider stream

  datatype ContentBlock = ToolUseBlock(id: string) | TextBlock

  datatype Delta = TextDelta(text: string) | InputJsonDelta(partialJson: string) | OtherDelta

  datatype StreamEvent =
    | ContentBlockStart(block: ContentBlock)
    | ContentBlockDelta(delta: Delta)
    | ContentBlockStop
    | MessageStop
    | OtherEvent    // message_start, message_delta, ping

  /** What the catch block sees: an `Error` with its message, or any other thrown value. */
  datatype Thrown = ErrorObject(message: string) | NonError

  /** The events a provider stream delivers, and whether it then throws. */
  datatype Reply = Reply(events: seq<StreamEvent>, thrown: Option<Thrown>)

  // -----------------------------------------------------------------------
  // Request history

  datatype ContentPart =
    | TextPart(text: string)
    | ToolUsePart(id: string, name: string, input: CharacterUpdate)
    | ToolResultPart(toolUseId: string, content: string)

  datatype ApiMessage =
    | PlainMessage(role: Role, content: string)
    | PartsMessage(role: Role, parts: seq<ContentPart>)

  /** `messages.map(m => ({ role, content }))`. */
  function ToApi(messages: seq<ChatMessage>): (r: seq<ApiMessage>)
    ensures |r| == |messages|
    ensures forall k :: 0 <= k < |r| ==> r[k] == PlainMessage(messages[k].role, messages[k].content)
  {
    if messages == [] then []
    else [PlainMessage(messages[0].role, messages[0].content)] + ToApi(messages[1..])
  }

  const ToolName := "update_character"
  const ToolResultText := "Character updated successfully."

  /**
   * The two turns appended to the history for the follow-up request: the
   * assistant's text (only when non-empty) and its tool call, then the user's
   * tool result.
   */
  function Acknowledgement(text: string, id: string, update: CharacterUpdate): (r: seq<ApiMessage>)
    ensures |r| == 2
    ensures r[0].PartsMessage? && r[0].role == Assistant
    ensures r[0].parts == (if text != "" then [TextPart(text)] else []) + [ToolUsePart(id, ToolName, update)]
    ensures r[1] == PartsMessage(User, [ToolResultPart(id, ToolResultText)])
  {
    [PartsMessage(Assistant, (if text != "" then [TextPart(text)] else []) + [ToolUsePart(id, ToolName, update)]),
     PartsMessage(User, [ToolResultPart(id, ToolResultText)])]
  }

  // -----------------------------------------------------------------------
  // Client events and their framing

  datatype ClientEvent =
    | TextEvent(text: string)
    | UpdateEvent(updates: CharacterUpdate)
    | DoneEvent
    | ErrorEvent(message: string)

  predicate IsContent(e: ClientEvent) { e.TextEvent? || e.UpdateEvent? }

  const GenericErrorMessage := "An error occurred"

  function MessageOf(t: Thrown): string {
    match t
    case ErrorObject(m) => m
    case NonError => GenericErrorMessage
  }

  /** `data: ${JSON.stringify(event)}\n\n`. */
  function Frame(e: ClientEvent, encode: ClientEvent -> string): string {
    "data: " + encode(e) + "\n\n"
  }

  function Frames(out: seq<ClientEvent>, encode: ClientEvent -> string): (r: seq<string>)
    ensures |r| == |out|
  {
    if out == [] then [] else [Frame(out[0], encode)] + Frames(out[1..], encode)
  }

  lemma {:induction false} FramesConcat(a: seq<ClientEvent>, b: seq<ClientEvent>, encode: ClientEvent -> string)
    ensures Frames(a + b, encode) == Frames(a, encode) + Frames(b, encode)
  {
    if a == [] {
      assert a + b == b;
    } else {
      assert (a + b)[1..] == a[1..] + b;
      FramesConcat(a[1..], b, encode);
    }
  }

  lemma {:induction false} FramesAppend(a: seq<ClientEvent>, e: ClientEvent, encode: ClientEvent -> string)
    ensures Frames(a + [e], encode) == Frames(a, encode) + [Frame(e, encode)]
  {
    FramesConcat(a, [e], encode);
  }

  // -----------------------------------------------------------------------
  // The turn as a sequence of steps

  /** The route's local variables. */
  datatype TurnState = TurnState(
    currentText: string,
    toolUseId: string,
    toolInput: string,
    actualToolUseId: string,
    pending: Option<CharacterUpdate>)

  const Fresh := TurnState("", "", "", "", None)

  datatype Env = Env(
    history: seq<ApiMessage>,
    parse: string -> Option<CharacterUpdate>,
    followUp: seq<ApiMessage> -> Reply)

  /** The state of the turn: variables, events sent so far, follow-up requests made, and a pending throw. */
  datatype Progress = Progress(
    st: TurnState,
    out: seq<ClientEvent>,
    requests: seq<seq<ApiMessage>>,
    thrown: Option<Thrown>)

  const Initial := Progress(Fresh, [], [], None)

  /** The client event a stream event forwards directly, if any: a text delta. */
  function TextOf(ev: StreamEvent): seq<ClientEvent> {
    if ev.ContentBlockDelta? && ev.delta.TextDelta? then [TextEvent(ev.delta.text)] else []
  }

  /** The text events of a stream: its text deltas, in order. */
  function TextEvents(evs: seq<StreamEvent>): seq<ClientEvent> {
    if evs == [] then [] else TextOf(evs[0]) + TextEvents(evs[1..])
  }

  function FollowUpRequest(env: Env, st: TurnState): seq<ApiMessage>
    requires st.pending.Some?
  {
    env.history + Acknowledgement(st.currentText, st.actualToolUseId, st.pending.value)
  }

  /** One iteration of the `for await` loop over the primary stream. */
  function Step(p: Progress, ev: StreamEvent, env: Env): Progress {
    var st := p.st;
    match ev
    case ContentBlockStart(ToolUseBlock(id)) =>
      p.(st := st.(toolUseId := id, actualToolUseId := id, toolInput := ""))
    case ContentBlockStart(TextBlock) => p
    case ContentBlockDelta(TextDelta(t)) =>
      p.(st := st.(currentText := st.currentText + t), out := p.out + [TextEvent(t)])
    case ContentBlockDelta(InputJsonDelta(j)) =>
      p.(st := st.(toolInput := st.toolInput + j))
    case ContentBlockDelta(OtherDelta) => p
    case ContentBlockStop =>
      if st.toolUseId == "" then p
      else (match env.parse(st.toolInput)
            case Some(u) => p.(st := st.(pending := Some(u), toolUseId := ""), out := p.out + [UpdateEvent(u)])
            case None => p.(st := st.(toolUseId := ""))
           )
    case MessageStop =>
      if st.pending.None? then p
      else
        var request := FollowUpRequest(env, st);
        var reply := env.followUp(request);
        p.(out := p.out + TextEvents(reply.events), requests := p.requests + [request], thrown := reply.thrown)
    case OtherEvent => p
  }

  /** The loop over the primary stream, left when it ends or something throws. */
  function Run(p: Progress, evs: seq<StreamEvent>, env: Env): Progress
    decreases |evs|
  {
    if evs == [] || p.thrown.Some? then p else Run(Step(p, evs[0], env), evs[1..], env)
  }

  datatype TurnResult = TurnResult(out: seq<ClientEvent>, requests: seq<seq<ApiMessage>>)

  /** The whole `start` callback: the loop, then `done`, or `error` from the catch block. */
  function Turn(messages: seq<ChatMessage>, primary: Reply,
                parse: string -> Option<CharacterUpdate>, followUp: seq<ApiMessage> -> Reply): TurnResult
  {
    var p := Run(Initial, primary.events, Env(ToApi(messages), parse, followUp));
    var thrown := if p.thrown.Some? then p.thrown else primary.thrown;
    TurnResult(p.out + [if thrown.Some? then ErrorEvent(MessageOf(thrown.value)) else DoneEvent], p.requests)
  }

  // -----------------------------------------------------------------------
  // The route's loop, written as the source writes it

  lemma {:induction false} FramesOfTail(evs: seq<StreamEvent>, j: nat, encode: ClientEvent -> string)
    requires j < |evs|
    ensures Frames(TextEvents(evs[j..]), encode)
            == Frames(TextOf(evs[j]), encode) + Frames(TextEvents(evs[j + 1..]), encode)
  {
    assert evs[j..][0] == evs[j] && evs[j..][1..] == evs[j + 1..];
    FramesConcat(TextOf(evs[j]), TextEvents(evs[j + 1..]), encode);
  }

  /** One turn of the inner loop: forwarding `evs[j]` moves its frames out of the remaining tail. */
  lemma ForwardStep(r: seq<string>, evs: seq<StreamEvent>, j: nat, encode: ClientEvent -> string)
    requires j < |evs|
    ensures var next := if evs[j].ContentBlockDelta? && evs[j].delta.TextDelta?
                        then r + [Frame(TextEvent(evs[j].delta.text), encode)] else r;
            next + Frames(TextEvents(evs[j + 1..]), encode) == r + Frames(TextEvents(evs[j..]), encode)
  {
    FramesOfTail(evs, j, encode);
    var tail := Frames(TextEvents(evs[j + 1..]), encode);
    if evs[j].ContentBlockDelta? && evs[j].delta.TextDelta? {
      var frame := Frame(TextEvent(evs[j].delta.text), encode);
      assert Frames(TextOf(evs[j]), encode) == [frame];
      assert (r + [frame]) + tail == r + ([frame] + tail);
    } else {
      assert Frames(TextOf(evs[j]), encode) == [];
      assert [] + tail == tail;
    }
  }

  /** The inner `for await` over a follow-up stream: forward its text deltas. */
  method ForwardFollowUp(enqueued: seq<string>, evs: seq<StreamEvent>, encode: ClientEvent -> string)
    returns (r: seq<string>)
    ensures r == enqueued + Frames(TextEvents(evs), encode)
  {
    r := enqueued;
    var j := 0;
    assert evs[j..] == evs;
    while j < |evs|
      invariant 0 <= j <= |evs|
      invariant r + Frames(TextEvents(evs[j..]), encode) == enqueued + Frames(TextEvents(evs), encode)
    {
      ForwardStep(r, evs, j, encode);
      var followEvent := evs[j];
      if followEvent.ContentBlockDelta? && followEvent.delta.TextDelta? {
        r := r + [Frame(TextEvent(followEvent.delta.text), encode)];
      }
      j := j + 1;
    }
    assert evs[j..] == [];
  }

  /** The body of the loop over the primary stream, for one event. */
  method HandleEvent(p: Progress, enqueued: seq<string>, ev: StreamEvent, env: Env, encode: ClientEvent -> string)
    returns (q: Progress, enqueued': seq<string>)
    requires enqueued == Frames(p.out, encode)
    ensures q == Step(p, ev, env)
    ensures enqueued' == Frames(q.out, encode)
  {
    var st := p.st;
    q, enqueued' := p, enqueued;
    match ev {
      case ContentBlockStart(block) =>
        if block.ToolUseBlock? {
          q := q.(st := st.(toolUseId := block.id, actualToolUseId := block.id, toolInput := ""));
        }
      case ContentBlockDelta(delta) =>
        if delta.TextDelta? {
          FramesAppend(p.out, TextEvent(delta.text), encode);
          q := q.(st := st.(currentText := st.currentText + delta.text), out := p.out + [TextEvent(delta.text)]);
          enqueued' := enqueued + [Frame(TextEvent(delta.text), encode)];
        } else if delta.InputJsonDelta? {
          q := q.(st := st.(toolInput := st.toolInput + delta.partialJson));
        }
      case ContentBlockStop =>
        if st.toolUseId != "" {
          var parsed := env.parse(st.toolInput);
          if parsed.Some? {
            FramesAppend(p.out, UpdateEvent(parsed.value), encode);
            q := q.(st := st.(pending := parsed, toolUseId := ""), out := p.out + [UpdateEvent(parsed.value)]);
            enqueued' := enqueued + [Frame(UpdateEvent(parsed.value), encode)];
          } else {
            q := q.(st := st.(toolUseId := ""));
          }
        }
      case MessageStop =>
        if st.pending.Some? {
          var request := env.history + Acknowledgement(st.currentText, st.actualToolUseId, st.pending.value);
          var reply := env.followUp(request);
          enqueued' := ForwardFollowUp(enqueued, reply.events, encode);
          FramesConcat(p.out, TextEvents(reply.events), encode);
          q := q.(out := p.out + TextEvents(reply.events), requests := p.requests + [request], thrown := reply.thrown);
        }
      case OtherEvent =>
    }
  }

  method HandleTurn(messages: seq<ChatMessage>, primary: Reply,
                    parse: string -> Option<CharacterUpdate>, followUp: seq<ApiMessage> -> Reply,
                    encode: ClientEvent -> string)
    returns (enqueued: seq<string>, requests: seq<seq<ApiMessage>>)
    ensures var t := Turn(messages, primary, parse, followUp);
      enqueued == Frames(t.out, encode) && requests == t.requests
  {
    var env := Env(ToApi(messages), parse, followUp);
    var p := Initial;
    enqueued := [];
    var events := primary.events;
    var i := 0;
    while i < |events| && p.thrown.None?
      invariant 0 <= i <= |events|
      invariant enqueued == Frames(p.out, encode)
      invariant Run(p, events[i..], env) == Run(Initial, events, env)
    {
      assert events[i..][0] == events[i] && events[i..][1..] == events[i + 1..];
      p, enqueued := HandleEvent(p, enqueued, events[i], env, encode);
      i := i + 1;
    }
    var failure := if p.thrown.Some? then p.thrown else primary.thrown;
    var last := if failure.Some? then ErrorEvent(MessageOf(failure.value)) else DoneEvent;
    FramesAppend(p.out, last, encode);
    enqueued := enqueued + [Frame(last, encode)];
    requests := p.requests;
  }

  // -----------------------------------------------------------------------
  // Reference views of a stream and of what the client receives

  /** The text events the client receives, in order. */
  function Texts(out: seq<ClientEvent>): seq<ClientEvent> {
    if out == [] then [] else (if out[0].TextEvent? then [out[0]] else []) + Texts(out[1..])
  }

  /** The updates the client receives, in order. */
  function Updates(out: seq<ClientEvent>): seq<CharacterUpdate> {
    if out == [] then [] else (if out[0].UpdateEvent? then [out[0].updates] else []) + Updates(out[1..])
  }

  predicate AllContent(out: seq<ClientEvent>) {
    forall k :: 0 <= k < |out| ==> IsContent(out[k])
  }

  predicate NoMessageStop(evs: seq<StreamEvent>) {
    forall k :: 0 <= k < |evs| ==> !evs[k].MessageStop?
  }

  function DeltaText(ev: StreamEvent): string {
    if ev.ContentBlockDelta? && ev.delta.TextDelta? then ev.delta.text else ""
  }

  /** All text deltas of a stream, concatenated. */
  function AllText(evs: seq<StreamEvent>): string {
    if evs == [] then "" else DeltaText(evs[0]) + AllText(evs[1..])
  }

  function StartedId(ev: StreamEvent, id: string): string {
    if ev.ContentBlockStart? && ev.block.ToolUseBlock? then ev.block.id else id
  }

  /** The id of the last tool block started, or `id` when none starts. */
  function LastToolId(evs: seq<StreamEvent>, id: string): string {
    if evs == [] then id else LastToolId(evs[1..], StartedId(evs[0], id))
  }

  /** The open tool block after `ev`: "" when none is open. */
  function OpenAfter(ev: StreamEvent, openId: string): string {
    match ev
    case ContentBlockStart(ToolUseBlock(id)) => id
    case ContentBlockStop => ""
    case _ => openId
  }

  /** The argument fragments collected after `ev`. */
  function BufferAfter(ev: StreamEvent, buffer: string): string {
    match ev
    case ContentBlockStart(ToolUseBlock(_)) => ""
    case ContentBlockDelta(InputJsonDelta(j)) => buffer + j
    case _ => buffer
  }

  /** The argument text `ev` completes: a stop closing an open tool block. */
  function ClosedBy(ev: StreamEvent, openId: string, buffer: string): seq<string> {
    if ev.ContentBlockStop? && openId != "" then [buffer] else []
  }

  /**
   * The argument text of each tool block the stream closes: the input
   * fragments received since that block started.  `openId` is the id of the
   * open tool block ("" when none is open) and `buffer` the fragments so far.
   */
  function ToolArguments(evs: seq<StreamEvent>, openId: string, buffer: string): seq<string> {
    if evs == [] then []
    else ClosedBy(evs[0], openId, buffer)
         + ToolArguments(evs[1..], OpenAfter(evs[0], openId), BufferAfter(evs[0], buffer))
  }

  /** The arguments that parse, parsed. */
  function Parsed(args: seq<string>, parse: string -> Option<CharacterUpdate>): seq<CharacterUpdate> {
    if args == [] then []
    else (if parse(args[0]).Some? then [parse(args[0]).value] else []) + Parsed(args[1..], parse)
  }

  function LastOr(us: seq<CharacterUpdate>, d: Option<CharacterUpdate>): Option<CharacterUpdate> {
    if us == [] then d else Some(us[|us| - 1])
  }

  lemma {:induction false} TextsConcat(a: seq<ClientEvent>, b: seq<ClientEvent>)
    ensures Texts(a + b) == Texts(a) + Texts(b)
  {
    if a == [] {
      assert a + b == b;
    } else {
      var h := if a[0].TextEvent? then [a[0]] else [];
      assert (a + b)[0] == a[0] && (a + b)[1..] == a[1..] + b;
      assert Texts(a + b) == h + Texts(a[1..] + b);
      TextsConcat(a[1..], b);
      assert h + (Texts(a[1..]) + Texts(b)) == (h + Texts(a[1..])) + Texts(b);
    }
  }

  lemma {:induction false} UpdatesConcat(a: seq<ClientEvent>, b: seq<ClientEvent>)
    ensures Updates(a + b) == Updates(a) + Updates(b)
  {
    if a == [] {
      assert a + b == b;
    } else {
      var h := if a[0].UpdateEvent? then [a[0].updates] else [];
      assert (a + b)[0] == a[0] && (a + b)[1..] == a[1..] + b;
      assert Updates(a + b) == h + Updates(a[1..] + b);
      UpdatesConcat(a[1..], b);
      assert h + (Updates(a[1..]) + Updates(b)) == (h + Updates(a[1..])) + Updates(b);
    }
  }

  lemma {:induction false} ParsedConcat(a: seq<string>, b: seq<string>, parse: string -> Option<CharacterUpdate>)
    ensures Parsed(a + b, parse) == Parsed(a, parse) + Parsed(b, parse)
  {
    if a == [] {
      assert a + b == b;
    } else {
      var h := if parse(a[0]).Some? then [parse(a[0]).value] else [];
      assert (a + b)[0] == a[0];
      assert (a + b)[1..] == a[1..] + b;
      assert Parsed(a + b, parse) == h + Parsed(a[1..] + b, parse);
      ParsedConcat(a[1..], b, parse);
      assert h + (Parsed(a[1..], parse) + Parsed(b, parse)) == (h + Parsed(a[1..], parse)) + Parsed(b, parse);
    }
  }

  lemma {:induction false} LastOrConcat(a: seq<CharacterUpdate>, b: seq<CharacterUpdate>, d: Option<CharacterUpdate>)
    ensures LastOr(a + b, d) == LastOr(b, LastOr(a, d))
  {
    if b == [] { assert a + b == a; }
  }

  lemma {:induction false} TextEventsAreText(evs: seq<StreamEvent>)
    ensures AllContent(TextEvents(evs))
    ensures Texts(TextEvents(evs)) == TextEvents(evs)
    ensures Updates(TextEvents(evs)) == []
  {
    if evs != [] {
      TextEventsAreText(evs[1..]);
      TextsConcat(TextOf(evs[0]), TextEvents(evs[1..]));
      UpdatesConcat(TextOf(evs[0]), TextEvents(evs[1..]));
    }
  }

  /** A step appends content events only. */
  lemma {:induction false} StepAppendsContent(p: Progress, ev: StreamEvent, env: Env)
    ensures exists more :: Step(p, ev, env).out == p.out + more && AllContent(more)
  {
    var q := Step(p, ev, env);
    if ev.MessageStop? && p.st.pending.Some? {
      var reply := env.followUp(FollowUpRequest(env, p.st));
      TextEventsAreText(reply.events);
      assert q.out == p.out + TextEvents(reply.events);
    } else if q.out == p.out {
      assert q.out == p.out + [];
    }
  }

  lemma {:induction false} RunKeepsContent(p: Progress, evs: seq<StreamEvent>, env: Env)
    requires AllContent(p.out)
    ensures AllContent(Run(p, evs, env).out)
    decreases |evs|
  {
    if evs != [] && p.thrown.None? {
      StepAppendsContent(p, evs[0], env);
      RunKeepsContent(Step(p, evs[0], env), evs[1..], env);
    }
  }

  /** Running a stream in two pieces is running it whole. */
  lemma {:induction false} RunConcat(p: Progress, a: seq<StreamEvent>, b: seq<StreamEvent>, env: Env)
    ensures Run(p, a + b, env) == Run(Run(p, a, env), b, env)
    decreases |a|
  {
    if a == [] {
      assert a + b == b;
    } else if p.thrown.Some? {
      if b != [] { assert (a + b) != []; }
    } else {
      assert (a + b)[0] == a[0] && (a + b)[1..] == a[1..] + b;
      RunConcat(Step(p, a[0], env), a[1..], b, env);
    }
  }

  /** One step other than `message_stop`. */
  lemma {:induction false} StepBody(p: Progress, ev: StreamEvent, env: Env)
    requires !ev.MessageStop?
    ensures var q := Step(p, ev, env);
      && q.thrown == p.thrown && q.requests == p.requests
      && Texts(q.out) == Texts(p.out) + TextOf(ev)
      && q.st.currentText == p.st.currentText + DeltaText(ev)
      && q.st.actualToolUseId == StartedId(ev, p.st.actualToolUseId)
  {
    var q := Step(p, ev, env);
    if ev.ContentBlockDelta? && ev.delta.TextDelta? {
      TextsConcat(p.out, [TextEvent(ev.delta.text)]);
    } else if ev.ContentBlockStop? && p.st.toolUseId != "" && env.parse(p.st.toolInput).Some? {
      TextsConcat(p.out, [UpdateEvent(env.parse(p.st.toolInput).value)]);
    } else {
      assert q.out == p.out;
    }
  }

  /**
   * Over a stream without `message_stop` nothing is requested and nothing
   * throws; the client gets the stream's text deltas in order; the text and
   * the last tool id accumulate.
   */
  lemma {:induction false} RunBody(p: Progress, evs: seq<StreamEvent>, env: Env)
    requires p.thrown.None? && NoMessageStop(evs)
    ensures var q := Run(p, evs, env);
      && q.thrown.None? && q.requests == p.requests
      && Texts(q.out) == Texts(p.out) + TextEvents(evs)
      && q.st.currentText == p.st.currentText + AllText(evs)
      && q.st.actualToolUseId == LastToolId(evs, p.st.actualToolUseId)
    decreases |evs|
  {
    if evs != [] {
      assert NoMessageStop(evs[1..]) by {
        forall k | 0 <= k < |evs[1..]| ensures !evs[1..][k].MessageStop? { assert evs[1..][k] == evs[k + 1]; }
      }
      var p1 := Step(p, evs[0], env);
      RunBody(p1, evs[1..], env);
      StepBody(p, evs[0], env);
      assert Run(p, evs, env) == Run(p1, evs[1..], env);
      var q := Run(p1, evs[1..], env);
      TextEventsStep(Texts(p.out), Texts(p1.out), Texts(q.out), evs);
      AllTextStep(p.st.currentText, p1.st.currentText, q.st.currentText, evs);
    }
  }

  /** The text events of a stream are its first event's, then the rest's. */
  lemma {:induction false} TextEventsStep(t0: seq<ClientEvent>, t1: seq<ClientEvent>, t: seq<ClientEvent>, evs: seq<StreamEvent>)
    requires evs != [] && t1 == t0 + TextOf(evs[0]) && t == t1 + TextEvents(evs[1..])
    ensures t == t0 + TextEvents(evs)
  {
    assert TextEvents(evs) == TextOf(evs[0]) + TextEvents(evs[1..]);
    assert (t0 + TextOf(evs[0])) + TextEvents(evs[1..]) == t0 + (TextOf(evs[0]) + TextEvents(evs[1..]));
  }

  /** The text of a stream is its first event's, then the rest's. */
  lemma {:induction false} AllTextStep(s0: string, s1: string, s: string, evs: seq<StreamEvent>)
    requires evs != [] && s1 == s0 + DeltaText(evs[0]) && s == s1 + AllText(evs[1..])
    ensures s == s0 + AllText(evs)
  {
    assert AllText(evs) == DeltaText(evs[0]) + AllText(evs[1..]);
    assert (s0 + DeltaText(evs[0])) + AllText(evs[1..]) == s0 + (DeltaText(evs[0]) + AllText(evs[1..]));
  }

  /** One step, seen from the tool blocks. */
  lemma {:induction false} StepUpdates(p: Progress, ev: StreamEvent, env: Env)
    requires p.thrown.None?
    ensures var q := Step(p, ev, env);
      var us := Parsed(ClosedBy(ev, p.st.toolUseId, p.st.toolInput), env.parse);
      && Updates(q.out) == Updates(p.out) + us
      && q.st.pending == LastOr(us, p.st.pending)
      && q.st.toolUseId == OpenAfter(ev, p.st.toolUseId)
      && q.st.toolInput == BufferAfter(ev, p.st.toolInput)
  {
    var q := Step(p, ev, env);
    var st := p.st;
    match ev
    case ContentBlockStop =>
      if st.toolUseId != "" {
        assert ClosedBy(ev, st.toolUseId, st.toolInput) == [st.toolInput];
        if env.parse(st.toolInput).Some? {
          UpdatesConcat(p.out, [UpdateEvent(env.parse(st.toolInput).value)]);
        }
      }
    case MessageStop =>
      if st.pending.Some? {
        var reply := env.followUp(FollowUpRequest(env, st));
        TextEventsAreText(reply.events);
        UpdatesConcat(p.out, TextEvents(reply.events));
      }
    case ContentBlockDelta(d) =>
      if d.TextDelta? { UpdatesConcat(p.out, [TextEvent(d.text)]); }
    case ContentBlockStart(b) =>
    case OtherEvent =>
  }

  /** A run without a throw had none before its first step, and none after it. */
  lemma {:induction false} RunCompleted(p: Progress, evs: seq<StreamEvent>, env: Env)
    requires evs != [] && Run(p, evs, env).thrown.None?
    ensures p.thrown.None?
    ensures Run(p, evs, env) == Run(Step(p, evs[0], env), evs[1..], env)
    ensures Run(Step(p, evs[0], env), evs[1..], env).thrown.None?
  {
  }

  /**
   * Over any stream the route gets through without a throw, the client
   * receives one update per tool block whose argument text parses, in the
   * order the blocks close, and the pending update is the last of them.
   */
  lemma {:induction false} RunUpdates(p: Progress, evs: seq<StreamEvent>, env: Env)
    requires Run(p, evs, env).thrown.None?
    ensures var q := Run(p, evs, env);
      var us := Parsed(ToolArguments(evs, p.st.toolUseId, p.st.toolInput), env.parse);
      && Updates(q.out) == Updates(p.out) + us
      && q.st.pending == LastOr(us, p.st.pending)
    decreases |evs|
  {
    if evs != [] {
      RunCompleted(p, evs, env);
      var p1 := Step(p, evs[0], env);
      StepUpdates(p, evs[0], env);
      RunUpdates(p1, evs[1..], env);
      var here := ClosedBy(evs[0], p.st.toolUseId, p.st.toolInput);
      var rest := ToolArguments(evs[1..], p1.st.toolUseId, p1.st.toolInput);
      ParsedConcat(here, rest, env.parse);
      LastOrConcat(Parsed(here, env.parse), Parsed(rest, env.parse), p.st.pending);
    }
  }

  /**
   * With a parser that never succeeds, nothing is requested, nothing throws,
   * and the client receives exactly the stream's text deltas.
   */
  lemma {:induction false} RunNeverParsed(p: Progress, evs: seq<StreamEvent>, env: Env)
    requires forall s :: env.parse(s).None?
    requires p.thrown.None? && p.st.pending.None?
    ensures var q := Run(p, evs, env);
      q.thrown.None? && q.requests == p.requests && q.out == p.out + TextEvents(evs)
    decreases |evs|
  {
    if evs == [] {
      assert p.out + TextEvents(evs) == p.out;
    } else {
      var p1 := Step(p, evs[0], env);
      StepNeverParsed(p, evs[0], env);
      assert Run(p, evs, env) == Run(p1, evs[1..], env);
      RunNeverParsed(p1, evs[1..], env);
      assert TextEvents(evs) == TextOf(evs[0]) + TextEvents(evs[1..]);
      assert (p.out + TextOf(evs[0])) + TextEvents(evs[1..]) == p.out + (TextOf(evs[0]) + TextEvents(evs[1..]));
    }
  }

  lemma {:induction false} StepNeverParsed(p: Progress, ev: StreamEvent, env: Env)
    requires forall s :: env.parse(s).None?
    requires p.thrown.None? && p.st.pending.None?
    ensures var p1 := Step(p, ev, env);
      p1.thrown.None? && p1.st.pending.None? && p1.requests == p.requests && p1.out == p.out + TextOf(ev)
  {
    if ev.ContentBlockStop? && p.st.toolUseId != "" {
      assert env.parse(p.st.toolInput).None?;
    }
  }

  // -----------------------------------------------------------------------
  // Properties of a whole turn

  ghost predicate FollowUpsSucceed(followUp: seq<ApiMessage> -> Reply) {
    forall h :: followUp(h).thrown.None?
  }

  /** The client receives content events, then exactly one `done` or `error`, which is last. */
  lemma {:induction false} TurnEndsOnce(messages: seq<ChatMessage>, primary: Reply,
                     parse: string -> Option<CharacterUpdate>, followUp: seq<ApiMessage> -> Reply)
    ensures var out := Turn(messages, primary, parse, followUp).out;
      && |out| >= 1
      && (out[|out| - 1].DoneEvent? || out[|out| - 1].ErrorEvent?)
      && forall k :: 0 <= k < |out| - 1 ==> IsContent(out[k])
  {
    RunKeepsContent(Initial, primary.events, Env(ToApi(messages), parse, followUp));
  }

  /**
   * A throw from the primary stream ends the turn with `error` carrying the
   * thrown message and no `done`; without any throw the turn ends with `done`.
   */
  lemma {:induction false} TurnOutcome(messages: seq<ChatMessage>, primary: Reply,
                    parse: string -> Option<CharacterUpdate>, followUp: seq<ApiMessage> -> Reply)
    ensures var out := Turn(messages, primary, parse, followUp).out;
      && (primary.thrown.Some? ==> out[|out| - 1].ErrorEvent? && DoneEvent !in out)
      && (primary.thrown.Some? && FollowUpsSucceed(followUp) ==>
            out[|out| - 1] == ErrorEvent(MessageOf(primary.thrown.value)))
      && (primary.thrown.None? && FollowUpsSucceed(followUp) ==> out[|out| - 1] == DoneEvent)
      && (out[|out| - 1] == DoneEvent ==> primary.thrown.None?)
  {
    var env := Env(ToApi(messages), parse, followUp);
    RunKeepsContent(Initial, primary.events, env);
    if FollowUpsSucceed(followUp) { RunNoThrow(Initial, primary.events, env); }
  }

  lemma {:induction false} RunNoThrow(p: Progress, evs: seq<StreamEvent>, env: Env)
    requires p.thrown.None? && FollowUpsSucceed(env.followUp)
    ensures Run(p, evs, env).thrown.None?
    decreases |evs|
  {
    if evs != [] { RunNoThrow(Step(p, evs[0], env), evs[1..], env); }
  }

  /** When the first request fails outright the client receives one `error` and nothing else. */
  lemma {:induction false} RequestFailure(messages: seq<ChatMessage>, t: Thrown,
                       parse: string -> Option<CharacterUpdate>, followUp: seq<ApiMessage> -> Reply)
    ensures Turn(messages, Reply([], Some(t)), parse, followUp) == TurnResult([ErrorEvent(MessageOf(t))], [])
  {
  }

  /**
   * The updates the client receives do not depend on the follow-up: they
   * are the parsed arguments of the primary stream's tool blocks.
   */
  lemma {:induction false} UpdatesFromToolBlocks(messages: seq<ChatMessage>, primary: Reply,
                              parse: string -> Option<CharacterUpdate>, followUp: seq<ApiMessage> -> Reply)
    requires FollowUpsSucceed(followUp)
    ensures Updates(Turn(messages, primary, parse, followUp).out)
            == Parsed(ToolArguments(primary.events, "", ""), parse)
  {
    var env := Env(ToApi(messages), parse, followUp);
    RunNoThrow(Initial, primary.events, env);
    RunUpdates(Initial, primary.events, env);
    var q := Run(Initial, primary.events, env);
    var last := if primary.thrown.Some? then ErrorEvent(MessageOf(primary.thrown.value)) else DoneEvent;
    assert Turn(messages, primary, parse, followUp).out == q.out + [last];
    UpdatesConcat(q.out, [last]);
  }

  /** Malformed tool input: no update, no follow-up, and the text deltas then the terminal event. */
  lemma {:induction false} MalformedToolInput(messages: seq<ChatMessage>, primary: Reply,
                           parse: string -> Option<CharacterUpdate>, followUp: seq<ApiMessage> -> Reply)
    requires forall s :: parse(s).None?
    ensures var t := Turn(messages, primary, parse, followUp);
      && t.requests == []
      && t.out == TextEvents(primary.events)
                  + [if primary.thrown.Some? then ErrorEvent(MessageOf(primary.thrown.value)) else DoneEvent]
  {
    RunNeverParsed(Initial, primary.events, Env(ToApi(messages), parse, followUp));
  }

  /**
   * A turn shaped as the provider sends it: content, then `message_stop`.
   * The client receives the primary text and then, when some update parsed,
   * the follow-up's text; exactly one follow-up is made in that case, and
   * its history acknowledges the last parsed update under the last tool id
   * with all of the primary text.
   */
  lemma {:induction false} NormalTurn(messages: seq<ChatMessage>, body: seq<StreamEvent>,
                   parse: string -> Option<CharacterUpdate>, followUp: seq<ApiMessage> -> Reply)
    requires NoMessageStop(body)
    ensures var t := Turn(messages, Reply(body + [MessageStop], None), parse, followUp);
      var us := Parsed(ToolArguments(body, "", ""), parse);
      var request := if us == [] then []
                     else ToApi(messages) + Acknowledgement(AllText(body), LastToolId(body, ""), us[|us| - 1]);
      && Updates(t.out) == us
      && t.requests == (if us == [] then [] else [request])
      && Texts(t.out) == TextEvents(body) + (if us == [] then [] else TextEvents(followUp(request).events))
      && t.out[|t.out| - 1]
         == (if us != [] && followUp(request).thrown.Some?
             then ErrorEvent(MessageOf(followUp(request).thrown.value)) else DoneEvent)
  {
    NormalRun(body, Env(ToApi(messages), parse, followUp));
    TurnOfRun(messages, Reply(body + [MessageStop], None), parse, followUp);
  }

  /** What a turn sends, in terms of its loop: the loop's requests, text and updates, then the terminal event. */
  lemma {:induction false} TurnOfRun(messages: seq<ChatMessage>, primary: Reply,
                  parse: string -> Option<CharacterUpdate>, followUp: seq<ApiMessage> -> Reply)
    ensures var r := Run(Initial, primary.events, Env(ToApi(messages), parse, followUp));
      var thrown := if r.thrown.Some? then r.thrown else primary.thrown;
      var t := Turn(messages, primary, parse, followUp);
      && t.requests == r.requests
      && Texts(t.out) == Texts(r.out) && Updates(t.out) == Updates(r.out)
      && t.out[|t.out| - 1] == (if thrown.Some? then ErrorEvent(MessageOf(thrown.value)) else DoneEvent)
  {
    var r := Run(Initial, primary.events, Env(ToApi(messages), parse, followUp));
    var thrown := if r.thrown.Some? then r.thrown else primary.thrown;
    var last := if thrown.Some? then ErrorEvent(MessageOf(thrown.value)) else DoneEvent;
    assert Turn(messages, primary, parse, followUp) == TurnResult(r.out + [last], r.requests);
    Terminated(r.out, last);
  }

  /** A terminal event adds neither text nor updates, and is the last thing sent. */
  lemma {:induction false} Terminated(out: seq<ClientEvent>, last: ClientEvent)
    requires last.DoneEvent? || last.ErrorEvent?
    ensures Texts(out + [last]) == Texts(out) && Updates(out + [last]) == Updates(out)
    ensures (out + [last])[|out|] == last
  {
    TextsConcat(out, [last]);
    UpdatesConcat(out, [last]);
    assert Texts([last]) == [] && Updates([last]) == [];
  }

  lemma {:induction false} NormalRun(body: seq<StreamEvent>, env: Env)
    requires NoMessageStop(body)
    ensures var r := Run(Initial, body + [MessageStop], env);
      var us := Parsed(ToolArguments(body, "", ""), env.parse);
      var request := if us == [] then []
                     else env.history + Acknowledgement(AllText(body), LastToolId(body, ""), us[|us| - 1]);
      && Updates(r.out) == us
      && r.requests == (if us == [] then [] else [request])
      && Texts(r.out) == TextEvents(body) + (if us == [] then [] else TextEvents(env.followUp(request).events))
      && r.thrown == (if us == [] then None else env.followUp(request).thrown)
  {
    var q := Run(Initial, body, env);
    BodyRun(body, env);
    RunConcat(Initial, body, [MessageStop], env);
    StopRun(q, env);
    StepStop(q, env);
  }

  lemma {:induction false} StopRun(q: Progress, env: Env)
    ensures Run(q, [MessageStop], env) == (if q.thrown.Some? then q else Step(q, MessageStop, env))
  {
    assert [MessageStop][1..] == [];
  }

  /** The state after the content of a normal turn. */
  lemma {:induction false} BodyRun(body: seq<StreamEvent>, env: Env)
    requires NoMessageStop(body)
    ensures var q := Run(Initial, body, env);
      var us := Parsed(ToolArguments(body, "", ""), env.parse);
      && q.thrown.None? && q.requests == []
      && Updates(q.out) == us && Texts(q.out) == TextEvents(body)
      && q.st.currentText == AllText(body) && q.st.actualToolUseId == LastToolId(body, "")
      && q.st.pending == LastOr(us, None)
  {
    RunBody(Initial, body, env);
    RunUpdates(Initial, body, env);
    assert "" + AllText(body) == AllText(body);
  }

  /** `message_stop`: a follow-up exactly when an update is pending, forwarding its text only. */
  lemma {:induction false} StepStop(q: Progress, env: Env)
    requires q.thrown.None?
    ensures var r := Step(q, MessageStop, env);
      && (q.st.pending.None? ==> r == q)
      && (q.st.pending.Some? ==>
            var reply := env.followUp(FollowUpRequest(env, q.st));
            && r.requests == q.requests + [FollowUpRequest(env, q.st)]
            && r.thrown == reply.thrown
            && Updates(r.out) == Updates(q.out)
            && Texts(r.out) == Texts(q.out) + TextEvents(reply.events))
  {
    if q.st.pending.Some? {
      var reply := env.followUp(FollowUpRequest(env, q.st));
      TextEventsAreText(reply.events);
      TextsConcat(q.out, TextEvents(reply.events));
      UpdatesConcat(q.out, TextEvents(reply.events));
    }
  }

  // -----------------------------------------------------------------------
  // Worked turns

  const ElfJson := "{\"race\":\"Elf\"}"

  /** Narration, a tool call whose arguments arrive in two fragments, then `message_stop`. */
  const ElfStream := [
    ContentBlockStart(TextBlock), ContentBlockDelta(TextDelta("Great choice! ")), ContentBlockStop,
    ContentBlockStart(ToolUseBlock("t1")),
    ContentBlockDelta(InputJsonDelta("{\"ra")), ContentBlockDelta(InputJsonDelta("ce\":\"Elf\"}")),
    ContentBlockStop, MessageStop]

  const ElfFollowUp := Reply([ContentBlockDelta(TextDelta("Your character is now an Elf.")), MessageStop], None)

  lemma {:induction false} ElfTurn(messages: seq<ChatMessage>, u: CharacterUpdate,
                parse: string -> Option<CharacterUpdate>, followUp: seq<ApiMessage> -> Reply)
    requires parse(ElfJson) == Some(u)
    requires forall h :: followUp(h) == ElfFollowUp
    ensures Turn(messages, Reply(ElfStream, None), parse, followUp)
            == TurnResult([TextEvent("Great choice! "), UpdateEvent(u), TextEvent("Your character is now an Elf."), DoneEvent],
                          [ToApi(messages) + Acknowledgement("Great choice! ", "t1", u)])
  {
    var env := Env(ToApi(messages), parse, followUp);
    ElfRun(env, u);
    var p := Run(Initial, ElfStream, env);
    assert p.out + [DoneEvent]
           == [TextEvent("Great choice! "), UpdateEvent(u), TextEvent("Your character is now an Elf."), DoneEvent];
  }

  /** The whole stream: the content, then the follow-up at `message_stop`. */
  lemma {:induction false} ElfRun(env: Env, u: CharacterUpdate)
    requires env.parse(ElfJson) == Some(u)
    requires forall h :: env.followUp(h) == ElfFollowUp
    ensures var p := Run(Initial, ElfStream, env);
      && p.thrown.None?
      && p.out == [TextEvent("Great choice! "), UpdateEvent(u), TextEvent("Your character is now an Elf.")]
      && p.requests == [env.history + Acknowledgement("Great choice! ", "t1", u)]
  {
    var p7 := ElfContent(env, u);
    ElfStop(env, u, p7);
    assert ElfStream == ElfStream[..7] + [MessageStop];
    RunConcat(Initial, ElfStream[..7], [MessageStop], env);
    StopRun(p7, env);
    assert Run(Initial, ElfStream, env) == Step(p7, MessageStop, env);
  }

  /** The state once the tool block has closed. */
  lemma {:induction false} ElfContent(env: Env, u: CharacterUpdate) returns (p7: Progress)
    requires env.parse(ElfJson) == Some(u)
    ensures p7 == Progress(Fresh.(currentText := "Great choice! ", actualToolUseId := "t1",
                                  toolInput := ElfJson, pending := Some(u)),
                           [TextEvent("Great choice! "), UpdateEvent(u)], [], None)
    ensures Run(Initial, ElfStream[..7], env) == p7
  {
    var S := ElfStream[..7];
    var st2 := Fresh.(currentText := "Great choice! ");
    var p2 := Progress(st2, [TextEvent("Great choice! ")], [], None);
    var st4 := st2.(toolUseId := "t1", actualToolUseId := "t1");
    var st6 := st4.(toolInput := ElfJson);
    p7 := Progress(st6.(toolUseId := "", pending := Some(u)), [TextEvent("Great choice! "), UpdateEvent(u)], [], None);
    assert "" + "{\"ra" + "ce\":\"Elf\"}" == ElfJson;
    RunCons(Initial, S, env);
    assert Step(Initial, S[0], env) == Initial;
    RunCons(Initial, S[1..], env);
    assert Step(Initial, S[1], env) == p2;
    RunCons(p2, S[2..], env);
    assert Step(p2, S[2], env) == p2;
    RunCons(p2, S[3..], env);
    RunCons(p2.(st := st4), S[4..], env);
    RunCons(p2.(st := st4.(toolInput := "{\"ra")), S[5..], env);
    RunCons(p2.(st := st6), S[6..], env);
    assert Step(p2.(st := st6), S[6], env) == p7;
    assert S[7..] == [];
  }

  lemma {:induction false} ElfStop(env: Env, u: CharacterUpdate, p7: Progress)
    requires forall h :: env.followUp(h) == ElfFollowUp
    requires p7 == Progress(Fresh.(currentText := "Great choice! ", actualToolUseId := "t1",
                                   toolInput := ElfJson, pending := Some(u)),
                            [TextEvent("Great choice! "), UpdateEvent(u)], [], None)
    ensures Step(p7, MessageStop, env)
            == p7.(out := p7.out + [TextEvent("Your character is now an Elf.")],
                   requests := [env.history + Acknowledgement("Great choice! ", "t1", u)])
  {
    assert TextEvents(ElfFollowUp.events) == [TextEvent("Your character is now an Elf.")];
  }

  lemma {:induction false} RunCons(p: Progress, evs: seq<StreamEvent>, env: Env)
    requires evs != [] && p.thrown.None?
    ensures Run(p, evs, env) == Run(Step(p, evs[0], env), evs[1..], env)
  {
  }

  /** Narration, then a tool call whose arguments are not valid JSON, then `message_stop`. */
  const InvalidStream := [
    ContentBlockDelta(TextDelta("Hmm. ")), ContentBlockStart(ToolUseBlock("t1")),
    ContentBlockDelta(InputJsonDelta(InvalidJson)), ContentBlockStop, MessageStop]

  const InvalidJson := "{\"race\":}"

  /** Invalid tool arguments: the narration, then `done`, and no follow-up. */
  lemma {:induction false} InvalidToolArguments(messages: seq<ChatMessage>, parse: string -> Option<CharacterUpdate>,
                             followUp: seq<ApiMessage> -> Reply)
    requires parse(InvalidJson) == None
    ensures Turn(messages, Reply(InvalidStream, None), parse, followUp)
            == TurnResult([TextEvent("Hmm. "), DoneEvent], [])
  {
    var env := Env(ToApi(messages), parse, followUp);
    var p4 := InvalidRun(env);
    assert Run(Initial, InvalidStream, env) == p4;
  }

  /** The stream's run: the tool block closes with nothing pending, so `message_stop` changes nothing. */
  lemma {:induction false} InvalidRun(env: Env) returns (p4: Progress)
    requires env.parse(InvalidJson) == None
    ensures p4.out == [TextEvent("Hmm. ")] && p4.requests == [] && p4.thrown.None?
    ensures Run(Initial, InvalidStream, env) == p4
  {
    var S := InvalidStream;
    var p1 := Progress(Fresh.(currentText := "Hmm. "), [TextEvent("Hmm. ")], [], None);
    var st2 := p1.st.(toolUseId := "t1", actualToolUseId := "t1");
    var st3 := st2.(toolInput := InvalidJson);
    p4 := p1.(st := st3.(toolUseId := ""));
    assert "" + InvalidJson == InvalidJson;
    RunCons(Initial, S, env);
    assert Step(Initial, S[0], env) == p1;
    RunCons(p1, S[1..], env);
    RunCons(p1.(st := st2), S[2..], env);
    RunCons(p1.(st := st3), S[3..], env);
    assert Step(p1.(st := st3), S[3], env) == p4;
    RunCons(p4, S[4..], env);
    assert Step(p4, S[4], env) == p4;
    assert S[5..] == [];
  }
}
