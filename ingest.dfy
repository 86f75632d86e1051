/**
 * How the chat store consumes a streamed reply: each decoded chunk is split at
 * `\n` and every line is classified and handled on its own (no text is carried
 * from one chunk to the next). The three reading loops of chat.js share this
 * shape and differ in how they classify a line and what a payload does.
 */
module Ingest {
  import opened Wrappers
  import opened Text
  import opened JsonValues
  import opened PayloadDecoder
  import opened Sessions

  /** `Date.now()`/`Math.random()` id suffixes and `new Date().toISOString()`
      timestamps, drawn by a counter the store advances on every use. */
  datatype Env = Env(tag: nat -> string, time: nat -> string)

  /** The part of the chat store a stream touches. */
  datatype Store = Store(chats: seq<Chat>, currentId: string, clock: nat)

  /** The store together with the id of the single bubble being filled, if any
      (`lastMessageId`, `null` at the start of `useStreamingAPI`). */
  datatype Run = Run(store: Store, lastId: Option<string>)

  /**
   * Which loop reads the stream: the chat branch of `sendMessageStream`
   * accumulating into the message `target`, `useAdvancedStreamAPI`, or
   * `useStreamingAPI` in single-bubble (`agentType === 'chat'`) or
   * new-bubble form.
   */
  datatype Mode = ChatMode(target: string) | AdvancedMode | StreamingMode(single: bool)

  /** What a line means to its loop. `Skip` covers `event:` lines, `data: [DONE]`
      and blank lines. */
  datatype LineKind = Skip | Payload(data: string) | AgentStartLine(line: string) | StepLine(text: string)

  /** `line.substring(5).trim()` of a `data:` line, unless it is `[DONE]`. */
  function DataLine(line: string): LineKind
    requires StartsWith(line, "data:")
  {
    var d := Trim(line[5..]);
    if d == "[DONE]" then Skip else Payload(d)
  }

  /** The classifier of chat.js 232-252 and 1226-1252. */
  function ClassifyPlain(line: string): LineKind {
    if StartsWith(line, "event:") then Skip
    else if StartsWith(line, "data:") then DataLine(line)
    else if Trim(line) != "" then Payload(Trim(line))
    else Skip
  }

  /** The classifier of chat.js 445-498: the agent-start marker is looked for
      before the `data:` prefix, step and agent mentions after it. */
  function ClassifyAdvanced(line: string): LineKind {
    if StartsWith(line, "event:") then Skip
    else if Contains(line, AgentStartMarker) then AgentStartLine(line)
    else if StartsWith(line, "data:") then DataLine(line)
    else if Contains(line, "Step ") || Contains(line, "Agent ") then StepLine(Trim(line))
    else if Trim(line) != "" then Payload(Trim(line))
    else Skip
  }

  function Classify(m: Mode, line: string): LineKind {
    if m.AdvancedMode? then ClassifyAdvanced(line) else ClassifyPlain(line)
  }

  /** A new assistant message with id `prefix_<tag>`, handed to `addMessage`. */
  function Emit(s: Store, prefix: string, content: string, isStep: bool, env: Env): Store {
    var m := Message(Some(prefix + "_" + env.tag(s.clock)), Assistant, content, env.time(s.clock), false, isStep);
    s.(chats := AddMessage(s.chats, s.currentId, m).0, clock := s.clock + 1)
  }

  function EmitBubble(s: Store, b: Bubble, env: Env): Store {
    match b
    case NoBubble => s
    case StepBubble(prefix, content) => Emit(s, prefix, content, true, env)
    case ContentBubble(prefix, content) => Emit(s, prefix, content, false, env)
  }

  /** `appendToMessage(id, text)` with a fresh timestamp. */
  function Append(s: Store, id: string, text: string, env: Env): Store {
    s.(chats := AppendToMessage(s.chats, s.currentId, id, text, env.time(s.clock)), clock := s.clock + 1)
  }

  /** `accumulateToMessage` (chat.js 308-352). */
  function Accumulate(s: Store, o: Codec, id: string, data: string, env: Env): Store {
    match DecodePayload(o, data, false)
    case None => s
    case Some(t) => Append(s, id, t, env)
  }

  /** Payloads `processStreamDataCombined` passes over (chat.js 1100-1108). */
  predicate CombinedSkips(data: string) {
    StartsWith(data, "event:") || Contains(data, AgentStartMarker)
    || StartsWith(data, "Step ") || StartsWith(data, "Agent ")
  }

  /** `processStreamDataCombined` (chat.js 1082-1159): without a bubble it opens
      an empty one and drops the payload; otherwise it appends the decoded text. */
  function Combined(s: Store, o: Codec, data: string, lastId: Option<string>, env: Env): Run {
    match lastId
    case None => Run(Emit(s, "stream", "", false, env), Some("stream_" + env.tag(s.clock)))
    case Some(id) =>
      if CombinedSkips(data) then Run(s, lastId)
      else
        match DecodePayload(o, data, true)
        case None => Run(s, lastId)
        case Some(t) => Run(Append(s, id, t, env), lastId)
  }

  /** Whether a mode opens a new message for every payload. */
  predicate NewBubbles(m: Mode) {
    m.AdvancedMode? || m == StreamingMode(false)
  }

  /** The message a line adds in a new-bubble mode. */
  function Produced(m: Mode, o: Codec, line: string): Bubble {
    match Classify(m, line)
    case Skip => NoBubble
    case AgentStartLine(l) => StepBubble("agent_start", l)
    case StepLine(t) => StepBubble("step", t)
    case Payload(d) => if NewBubbles(m) then NewBubble(o, d) else NoBubble
  }

  /** One iteration of the `for (const line of lines)` body. */
  function Step(m: Mode, o: Codec, env: Env, r: Run, line: string): (r': Run)
    ensures r'.store.currentId == r.store.currentId
  {
    if NewBubbles(m) then r.(store := EmitBubble(r.store, Produced(m, o, line), env))
    else
      match Classify(m, line)
      case Payload(d) =>
        (match m
         case ChatMode(target) => r.(store := Accumulate(r.store, o, target, d, env))
         case _ => Combined(r.store, o, d, r.lastId, env))
      case _ => r
  }

  /** The lines of one chunk, handled in order. */
  function Lines(m: Mode, o: Codec, env: Env, r: Run, lines: seq<string>): (r': Run)
    ensures r'.store.currentId == r.store.currentId
    decreases |lines|
  {
    if |lines| == 0 then r
    else Step(m, o, env, Lines(m, o, env, r, lines[..|lines| - 1]), lines[|lines| - 1])
  }

  /** The chunks of a response, each split at `\n` on its own. */
  function Chunks(m: Mode, o: Codec, env: Env, r: Run, chunks: seq<string>): (r': Run)
    ensures r'.store.currentId == r.store.currentId
    decreases |chunks|
  {
    if |chunks| == 0 then r
    else Lines(m, o, env, Chunks(m, o, env, r, chunks[..|chunks| - 1]), Split(chunks[|chunks| - 1]))
  }

  /** All lines the loops see, chunk after chunk. */
  function ChunkLines(chunks: seq<string>): seq<string>
    decreases |chunks|
  {
    if |chunks| == 0 then [] else ChunkLines(chunks[..|chunks| - 1]) + Split(chunks[|chunks| - 1])
  }
}
