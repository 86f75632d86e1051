/** What the stream-reading loops promise over all chunk sequences. */
module IngestProperties {
  import opened Wrappers
  import opened Text
  import opened JsonValues
  import opened PayloadDecoder
  import opened Sessions
  import opened Ingest
  import opened DecoderProperties
  import opened SessionProperties

  // ---------------------------------------------------------------------
  // Lines and chunks

  lemma {:induction false} LinesConcat(m: Mode, o: Codec, env: Env, r: Run, a: seq<string>, b: seq<string>)
    ensures Lines(m, o, env, r, a + b) == Lines(m, o, env, Lines(m, o, env, r, a), b)
    decreases |b|
  {
    if |b| == 0 {
      assert a + b == a;
    } else {
      var b' := b[..|b| - 1];
      assert (a + b)[..|a + b| - 1] == a + b';
      assert b[..|b| - 1] == b';
      LinesConcat(m, o, env, r, a, b');
    }
  }

  /** Reading chunk by chunk is reading the concatenation of their split lines. */
  lemma {:induction false} ChunksAreLines(m: Mode, o: Codec, env: Env, r: Run, chunks: seq<string>)
    ensures Chunks(m, o, env, r, chunks) == Lines(m, o, env, r, ChunkLines(chunks))
    decreases |chunks|
  {
    if |chunks| > 0 {
      var init := chunks[..|chunks| - 1];
      ChunksAreLines(m, o, env, r, init);
      LinesConcat(m, o, env, r, ChunkLines(init), Split(chunks[|chunks| - 1]));
    }
  }

  lemma {:induction false} SplitWithoutNewline(s: string)
    requires '\n' !in s
    ensures Split(s) == [s]
    decreases |s|
  {
    if |s| > 0 {
      var p := s[..|s| - 1];
      assert forall c :: c in p ==> c in s;
      SplitWithoutNewline(p);
      assert p + [s[|s| - 1]] == s;
    }
  }

  /**
   * No text is carried from one chunk to the next: when a line is cut between
   * two chunks, its two halves are handled as two separate lines.
   */
  lemma NoCarryOver(m: Mode, o: Codec, env: Env, r: Run, a: string, b: string)
    requires '\n' !in a && '\n' !in b
    ensures ChunkLines([a, b]) == [a, b]
    ensures Chunks(m, o, env, r, [a, b]) == Step(m, o, env, Step(m, o, env, r, a), b)
  {
    SplitWithoutNewline(a);
    SplitWithoutNewline(b);
    assert [a, b][..1] == [a] && [a][..0] == [] && [b][..0] == [];
    assert ChunkLines([a]) == [a];
    assert Chunks(m, o, env, r, []) == r;
    assert Lines(m, o, env, r, [a]) == Step(m, o, env, r, a);
    assert Chunks(m, o, env, r, [a]) == Lines(m, o, env, r, [a]);
    var r1 := Step(m, o, env, r, a);
    assert Lines(m, o, env, r1, [b]) == Step(m, o, env, r1, b);
  }

  // ---------------------------------------------------------------------
  // Line classification

  lemma BlankIsAllSpace(s: string)
    requires Trim(s) == ""
    ensures forall i :: 0 <= i < |s| ==> IsSpace(s[i])
  {
    var p := LeadLen(s, IsSpace);
    var t := s[p..];
    assert |t| == TrailLen(t, IsSpace);
    assert |t| == 0;
  }

  /** `event:` lines are ignored by every loop, and a step over one changes nothing. */
  lemma EventLinesSkipped(m: Mode, o: Codec, env: Env, r: Run, line: string)
    requires StartsWith(line, "event:")
    ensures Classify(m, line) == Skip
    ensures Step(m, o, env, r, line) == r
  {
  }

  /** Blank lines (whitespace only, the empty line included) are ignored by every loop. */
  lemma BlankLinesSkipped(m: Mode, line: string)
    requires Trim(line) == ""
    ensures Classify(m, line) == Skip
  {
    BlankIsAllSpace(line);
    MissingCharNotContained(line, AgentStartMarker, 0);
    MissingCharNotContained(line, "Step ", 0);
    MissingCharNotContained(line, "Agent ", 0);
    assert !StartsWith(line, "data:") by {
      if |line| >= 5 {
        assert line[..5][0] == line[0];
      }
    }
  }

  /** A `data:` line carries its trimmed text as the payload; only the `[DONE]`
      sentinel is skipped. */
  lemma DataLineRoundTrip(d: string)
    requires |d| > 0 ==> !IsSpace(d[0]) && !IsSpace(d[|d| - 1])
    ensures ClassifyPlain("data:" + d) == if d == "[DONE]" then Skip else Payload(d)
  {
    TrimOfTrimmed(d);
    DataPrefixRead("data:", d);
  }

  /** The same with one space after the colon, as servers usually send it. */
  lemma DataSpaceLineRoundTrip(d: string)
    requires |d| > 0 ==> !IsSpace(d[0]) && !IsSpace(d[|d| - 1])
    ensures ClassifyPlain("data: " + d) == if d == "[DONE]" then Skip else Payload(d)
  {
    var rest := " " + d;
    TrimOfTrimmed(d);
    TrimSkipsLeadingSpace(" ", d);
    assert Trim(rest) == d;
    assert "data: " + d == "data:" + rest;
    DataPrefixRead("data:", rest);
  }

  /** A line made of the `data:` prefix and a rest is a data line carrying the
      trimmed rest. */
  lemma DataPrefixRead(prefix: string, rest: string)
    requires prefix == "data:"
    ensures ClassifyPlain(prefix + rest) == if Trim(rest) == "[DONE]" then Skip else Payload(Trim(rest))
  {
    var l := prefix + rest;
    assert l[..5] == prefix;
    assert l[5..] == rest;
    assert !StartsWith(l, "event:") by { assert l[0] == 'd'; }
    assert ClassifyPlain(l) == DataLine(l);
  }

  /**
   * The advanced classifier agrees with the plain one on every line that
   * mentions neither the agent-start marker nor `Step `/`Agent `. A line with
   * the marker is an agent-start line even when it is a `data:` line, and a
   * line mentioning `Step ` or `Agent ` that is not a `data:` line is a step line.
   */
  lemma AdvancedClassifierOrder(line: string)
    ensures !Contains(line, AgentStartMarker) && !Contains(line, "Step ") && !Contains(line, "Agent ")
      ==> ClassifyAdvanced(line) == ClassifyPlain(line)
    ensures StartsWith(line, "data:") && !Contains(line, AgentStartMarker)
      ==> ClassifyAdvanced(line) == ClassifyPlain(line)
    ensures !StartsWith(line, "event:") && Contains(line, AgentStartMarker)
      ==> ClassifyAdvanced(line) == AgentStartLine(line)
    ensures !StartsWith(line, "event:") && !StartsWith(line, "data:") && !Contains(line, AgentStartMarker)
      && (Contains(line, "Step ") || Contains(line, "Agent "))
      ==> ClassifyAdvanced(line) == StepLine(Trim(line))
  {
  }

  /** Lines every loop passes over leave the store and the open bubble untouched. */
  lemma {:induction false} SkippedLinesChangeNothing(m: Mode, o: Codec, env: Env, r: Run, lines: seq<string>)
    requires forall k :: 0 <= k < |lines| ==> Classify(m, lines[k]) == Skip
    ensures Lines(m, o, env, r, lines) == r
    decreases |lines|
  {
    if |lines| > 0 {
      SkippedLinesChangeNothing(m, o, env, r, lines[..|lines| - 1]);
    }
  }

  // ---------------------------------------------------------------------
  // Single-bubble loops: one message is filled in place

  /** The content of message `id` in the current chat, if both exist. */
  function ContentOf(s: Store, id: string): Option<string> {
    match FindChat(s.chats, s.currentId)
    case None => None
    case Some(i) =>
      match FindMessage(s.chats[i].messages, id)
      case None => None
      case Some(j) => Some(s.chats[i].messages[j].content)
  }

  /** Same chats and messages in the same places, under the same ids; only
      contents, timestamps and titles may differ. */
  predicate SameLayout(a: seq<Chat>, b: seq<Chat>) {
    && |a| == |b|
    && (forall k :: 0 <= k < |a| ==> a[k].id == b[k].id && |a[k].messages| == |b[k].messages|)
    && (forall k, j :: 0 <= k < |a| && 0 <= j < |a[k].messages| && j < |b[k].messages| ==>
          a[k].messages[j].id == b[k].messages[j].id)
  }

  lemma SameLayoutTrans(a: seq<Chat>, b: seq<Chat>, c: seq<Chat>)
    requires SameLayout(a, b) && SameLayout(b, c)
    ensures SameLayout(a, c)
  {
    forall k, j | 0 <= k < |a| && 0 <= j < |a[k].messages| && j < |c[k].messages|
      ensures a[k].messages[j].id == c[k].messages[j].id
    {
      assert a[k].messages[j].id == b[k].messages[j].id;
    }
  }

  /** `b` differs from `a` at most in message `mi` of chat `ci`, and there only
      in that message's content and timestamp. */
  predicate OnlyMessageChanged(a: seq<Chat>, b: seq<Chat>, ci: nat, mi: nat) {
    && |a| == |b| && ci < |a|
    && (forall k :: 0 <= k < |a| && k != ci ==> a[k] == b[k])
    && b[ci] == a[ci].(messages := b[ci].messages)
    && |a[ci].messages| == |b[ci].messages| && mi < |a[ci].messages|
    && (forall j :: 0 <= j < |a[ci].messages| && j != mi ==> a[ci].messages[j] == b[ci].messages[j])
    && b[ci].messages[mi]
       == a[ci].messages[mi].(content := b[ci].messages[mi].content, timestamp := b[ci].messages[mi].timestamp)
  }

  lemma OnlyMessageChangedTrans(a: seq<Chat>, b: seq<Chat>, c: seq<Chat>, ci: nat, mi: nat)
    requires OnlyMessageChanged(a, b, ci, mi) && OnlyMessageChanged(b, c, ci, mi)
    ensures OnlyMessageChanged(a, c, ci, mi)
  {
  }

  /** Where the message `id` of the current chat sits, when it exists. */
  function Slot(s: Store, id: string): (nat, nat)
    requires ContentOf(s, id).Some?
  {
    var ci := FindChat(s.chats, s.currentId).value;
    (ci, FindMessage(s.chats[ci].messages, id).value)
  }

  /** Lookups agree on stores with the same layout. */
  lemma ContentOfSameLayout(s: Store, t: Store, id: string)
    requires SameLayout(s.chats, t.chats) && s.currentId == t.currentId
    ensures ContentOf(s, id).Some? <==> ContentOf(t, id).Some?
    ensures FindChat(s.chats, s.currentId) == FindChat(t.chats, t.currentId)
    ensures ContentOf(s, id).Some? ==> Slot(s, id) == Slot(t, id)
  {
    FindChatSameIds(s.chats, t.chats, s.currentId);
    if FindChat(s.chats, s.currentId).Some? {
      var i := FindChat(s.chats, s.currentId).value;
      FindMessageSameIds(s.chats[i].messages, t.chats[i].messages, id);
    }
  }

  /** One `appendToMessage` on an existing message joins the text to its content
      and moves nothing. */
  lemma AppendJoins(s: Store, id: string, text: string, env: Env)
    requires ContentOf(s, id).Some?
    ensures SameLayout(s.chats, Append(s, id, text, env).chats)
    ensures Append(s, id, text, env).currentId == s.currentId
    ensures OnlyMessageChanged(s.chats, Append(s, id, text, env).chats, Slot(s, id).0, Slot(s, id).1)
    ensures ContentOf(Append(s, id, text, env), id) == Some(JoinContent(ContentOf(s, id).value, text))
  {
    var s' := Append(s, id, text, env);
    AppendToMessageSpec(s.chats, s.currentId, id, text, env.time(s.clock));
    var i := FindChat(s.chats, s.currentId).value;
    var j := FindMessage(s.chats[i].messages, id).value;
    assert SameLayout(s.chats, s'.chats);
    FindChatSameIds(s.chats, s'.chats, s.currentId);
    FindMessageSameIds(s.chats[i].messages, s'.chats[i].messages, id);
  }

  /** The message a single-bubble loop fills. */
  function Target(m: Mode, r: Run): string
    requires m.ChatMode? || r.lastId.Some?
  {
    if m.ChatMode? then m.target else r.lastId.value
  }

  /** Whether a mode fills one open bubble from `r` on. */
  predicate Filling(m: Mode, r: Run) {
    m.ChatMode? || (m == StreamingMode(true) && r.lastId.Some?)
  }

  /** The text a line contributes to the filled bubble, if any. */
  function Piece(m: Mode, o: Codec, line: string): Option<string> {
    match Classify(m, line)
    case Payload(d) =>
      if m.ChatMode? then DecodePayload(o, d, false)
      else if CombinedSkips(d) then None
      else DecodePayload(o, d, true)
    case _ => None
  }

  function Pieces(m: Mode, o: Codec, lines: seq<string>): seq<string>
    decreases |lines|
  {
    if |lines| == 0 then []
    else
      Pieces(m, o, lines[..|lines| - 1])
      + match Piece(m, o, lines[|lines| - 1]) case Some(t) => [t] case None => []
  }

  lemma StepFills(m: Mode, o: Codec, env: Env, r: Run, line: string)
    requires Filling(m, r) && ContentOf(r.store, Target(m, r)).Some?
    ensures var r' := Step(m, o, env, r, line);
      && r'.lastId == r.lastId
      && r'.store.currentId == r.store.currentId
      && SameLayout(r.store.chats, r'.store.chats)
      && OnlyMessageChanged(r.store.chats, r'.store.chats, Slot(r.store, Target(m, r)).0, Slot(r.store, Target(m, r)).1)
      && ContentOf(r'.store, Target(m, r)) == Some(
           match Piece(m, o, line)
           case Some(t) => JoinContent(ContentOf(r.store, Target(m, r)).value, t)
           case None => ContentOf(r.store, Target(m, r)).value)
  {
    var id := Target(m, r);
    match Piece(m, o, line)
    case Some(t) => AppendJoins(r.store, id, t, env);
    case None =>
  }

  /** A single-bubble loop keeps the bubble's id and the current chat, and
      changes nothing but that one message's content and timestamp. */
  lemma {:induction false} SingleBubbleFrame(m: Mode, o: Codec, env: Env, r: Run, lines: seq<string>)
    requires Filling(m, r) && ContentOf(r.store, Target(m, r)).Some?
    ensures var r' := Lines(m, o, env, r, lines);
      && r'.lastId == r.lastId
      && r'.store.currentId == r.store.currentId
      && SameLayout(r.store.chats, r'.store.chats)
      && OnlyMessageChanged(r.store.chats, r'.store.chats, Slot(r.store, Target(m, r)).0, Slot(r.store, Target(m, r)).1)
    decreases |lines|
  {
    if |lines| > 0 {
      var init := lines[..|lines| - 1];
      var last := lines[|lines| - 1];
      SingleBubbleFrame(m, o, env, r, init);
      var r1 := Lines(m, o, env, r, init);
      var r2 := Step(m, o, env, r1, last);
      var id := Target(m, r);
      assert Target(m, r1) == id;
      assert Lines(m, o, env, r, lines) == r2;
      ContentOfSameLayout(r.store, r1.store, id);
      StepFills(m, o, env, r1, last);
      SameLayoutTrans(r.store.chats, r1.store.chats, r2.store.chats);
      OnlyMessageChangedTrans(r.store.chats, r1.store.chats, r2.store.chats, Slot(r.store, id).0, Slot(r.store, id).1);
    }
  }

  /** What a single-bubble loop leaves in its bubble: each payload's decoded
      text appended in order, with `appendToMessage`'s spacing. */
  lemma {:induction false} SingleBubbleContent(m: Mode, o: Codec, env: Env, r: Run, lines: seq<string>)
    requires Filling(m, r) && ContentOf(r.store, Target(m, r)).Some?
    ensures var r' := Lines(m, o, env, r, lines);
      && r'.lastId == r.lastId
      && ContentOf(r'.store, Target(m, r)) == Some(AppendAll(ContentOf(r.store, Target(m, r)).value, Pieces(m, o, lines)))
    decreases |lines|
  {
    var start := ContentOf(r.store, Target(m, r)).value;
    if |lines| == 0 {
      assert ContentOf(r.store.(chats := r.store.chats), Target(m, r)) == Some(start);
    } else {
      var init := lines[..|lines| - 1];
      var last := lines[|lines| - 1];
      SingleBubbleContent(m, o, env, r, init);
      SingleBubbleFrame(m, o, env, r, init);
      var r1 := Lines(m, o, env, r, init);
      assert Target(m, r1) == Target(m, r);
      assert Lines(m, o, env, r, lines) == Step(m, o, env, r1, last);
      ContentOfSameLayout(r.store, r1.store, Target(m, r));
      StepFills(m, o, env, r1, last);
      var ps := Pieces(m, o, init);
      match Piece(m, o, last)
      case Some(t) =>
        assert Pieces(m, o, lines) == ps + [t];
        assert (ps + [t])[..|ps|] == ps;
      case None =>
        assert Pieces(m, o, lines) == ps;
    }
  }

  /**
   * A single-bubble loop (the chat branch of `sendMessageStream`, or
   * `useStreamingAPI` for the chat agent once its bubble is open) adds and moves
   * no message and changes no other message: it only appends, in order, the
   * decoded text of each payload line to the one bubble, with
   * `appendToMessage`'s spacing.
   */
  lemma SingleBubbleRun(m: Mode, o: Codec, env: Env, r: Run, lines: seq<string>)
    requires Filling(m, r) && ContentOf(r.store, Target(m, r)).Some?
    ensures var r' := Lines(m, o, env, r, lines);
      && r'.lastId == r.lastId
      && r'.store.currentId == r.store.currentId
      && SameLayout(r.store.chats, r'.store.chats)
      && OnlyMessageChanged(r.store.chats, r'.store.chats, Slot(r.store, Target(m, r)).0, Slot(r.store, Target(m, r)).1)
      && ContentOf(r'.store, Target(m, r)) == Some(AppendAll(ContentOf(r.store, Target(m, r)).value, Pieces(m, o, lines)))
  {
    SingleBubbleFrame(m, o, env, r, lines);
    SingleBubbleContent(m, o, env, r, lines);
  }

  /**
   * When every piece is non-empty and does not end in a space (true of every
   * plain-text piece), a bubble that starts empty ends up holding the pieces
   * joined by single spaces: `A`, `B`, `C` give `A B C`.
   */
  lemma SingleBubbleSpaceJoined(m: Mode, o: Codec, env: Env, r: Run, lines: seq<string>)
    requires Filling(m, r) && ContentOf(r.store, Target(m, r)) == Some("")
    requires forall k :: 0 <= k < |Pieces(m, o, lines)| ==>
      Pieces(m, o, lines)[k] != "" && !EndsWith(Pieces(m, o, lines)[k], " ")
    ensures ContentOf(Lines(m, o, env, r, lines).store, Target(m, r)) == Some(SpaceJoin(Pieces(m, o, lines)))
  {
    SingleBubbleContent(m, o, env, r, lines);
    AppendAllSpaceJoins(Pieces(m, o, lines));
  }

  /** A new message under an id no message of the current chat has yet is found
      under that id with the content it was created with. */
  lemma EmitOpens(s: Store, prefix: string, content: string, isStep: bool, env: Env)
    requires s.currentId != "" && FindChat(s.chats, s.currentId).Some?
    requires FindMessage(s.chats[FindChat(s.chats, s.currentId).value].messages, prefix + "_" + env.tag(s.clock)).None?
    ensures ContentOf(Emit(s, prefix, content, isStep, env), prefix + "_" + env.tag(s.clock)) == Some(content)
  {
    var id := prefix + "_" + env.tag(s.clock);
    var i := FindChat(s.chats, s.currentId).value;
    var s' := Emit(s, prefix, content, isStep, env);
    EmitSpec(s, prefix, content, isStep, env);
    FindChatSameIds(s.chats, s'.chats, s.currentId);
    var prior := s.chats[i].messages;
    var ms := s'.chats[i].messages;
    assert ms[|prior|].id == Some(id);
    assert forall k :: 0 <= k < |prior| ==> ms[k].id != Some(id);
    assert FindMessage(ms, id) == Some(|prior|);
  }

  /**
   * `useStreamingAPI` for the chat agent: the first payload line only opens an
   * empty `stream_` bubble and its own text is dropped; the bubble then holds the
   * pieces of the following lines.
   */
  lemma StreamingFirstPayloadDropped(o: Codec, env: Env, s: Store, line: string, rest: seq<string>)
    requires Classify(StreamingMode(true), line).Payload?
    requires s.currentId != "" && FindChat(s.chats, s.currentId).Some?
    requires FindMessage(s.chats[FindChat(s.chats, s.currentId).value].messages, "stream_" + env.tag(s.clock)).None?
    ensures var id := "stream_" + env.tag(s.clock);
      var r := Lines(StreamingMode(true), o, env, Run(s, None), [line] + rest);
      && r.lastId == Some(id)
      && ContentOf(r.store, id) == Some(AppendAll("", Pieces(StreamingMode(true), o, rest)))
  {
    var m := StreamingMode(true);
    LinesConcat(m, o, env, Run(s, None), [line], rest);
    StreamingFirstLine(o, env, s, line);
    EmitOpens(s, "stream", "", false, env);
    SingleBubbleContent(m, o, env, Lines(m, o, env, Run(s, None), [line]), rest);
  }

  /** The first payload line of `useStreamingAPI` in single-bubble form only
      creates the empty `stream_` bubble. */
  lemma StreamingFirstLine(o: Codec, env: Env, s: Store, line: string)
    requires Classify(StreamingMode(true), line).Payload?
    ensures Lines(StreamingMode(true), o, env, Run(s, None), [line])
         == Run(Emit(s, "stream", "", false, env), Some("stream" + "_" + env.tag(s.clock)))
    ensures "stream" + "_" + env.tag(s.clock) == "stream_" + env.tag(s.clock)
  {
    assert [line][..0] == [];
    assert Lines(StreamingMode(true), o, env, Run(s, None), [line]) == Step(StreamingMode(true), o, env, Run(s, None), line);
    assert "stream" + "_" + env.tag(s.clock) == "stream_" + env.tag(s.clock);
  }

  // ---------------------------------------------------------------------
  // New-bubble loops: one message per line that produces something

  /** What a reader sees of a message: its text and whether it is a step. */
  datatype Output = Output(content: string, isStep: bool)

  function Shown(b: Bubble): seq<Output> {
    match b
    case NoBubble => []
    case StepBubble(_, content) => [Output(content, true)]
    case ContentBubble(_, content) => [Output(content, false)]
  }

  /** The messages a new-bubble loop should add for `lines`, in order. */
  function Outputs(m: Mode, o: Codec, lines: seq<string>): seq<Output>
    decreases |lines|
  {
    if |lines| == 0 then []
    else Outputs(m, o, lines[..|lines| - 1]) + Shown(Produced(m, o, lines[|lines| - 1]))
  }

  function Summary(ms: seq<Message>): seq<Output>
    decreases |ms|
  {
    if |ms| == 0 then [] else Summary(ms[..|ms| - 1]) + [Output(ms[|ms| - 1].content, ms[|ms| - 1].isStep)]
  }

  /** The current chat of `s` grew from that of `s0` by appended assistant
      messages only; every other chat and the chat's own identity are untouched. */
  predicate GrewBy(s0: Store, s: Store, added: seq<Output>)
    requires FindChat(s0.chats, s0.currentId).Some?
  {
    var i := FindChat(s0.chats, s0.currentId).value;
    var before := s0.chats[i].messages;
    && s.currentId == s0.currentId
    && |s.chats| == |s0.chats|
    && (forall k :: 0 <= k < |s0.chats| && k != i ==> s.chats[k] == s0.chats[k])
    && s.chats[i].id == s0.chats[i].id
    && s.chats[i].title == s0.chats[i].title
    && s.chats[i].agentId == s0.chats[i].agentId
    && |s.chats[i].messages| >= |before|
    && s.chats[i].messages[..|before|] == before
    && Summary(s.chats[i].messages[|before|..]) == added
    && (forall k :: |before| <= k < |s.chats[i].messages| ==>
          s.chats[i].messages[k].role == Assistant && !s.chats[i].messages[k].isError)
  }

  /** `Emit` appends one assistant message, under a `prefix_tag` id, to the
      current chat, and changes nothing else but the clock. */
  lemma EmitSpec(s: Store, prefix: string, content: string, isStep: bool, env: Env)
    requires s.currentId != "" && FindChat(s.chats, s.currentId).Some?
    ensures var i := FindChat(s.chats, s.currentId).value;
      var s' := Emit(s, prefix, content, isStep, env);
      && s'.currentId == s.currentId && s'.clock == s.clock + 1
      && |s'.chats| == |s.chats|
      && (forall k :: 0 <= k < |s.chats| && k != i ==> s'.chats[k] == s.chats[k])
      && s'.chats[i].id == s.chats[i].id
      && s'.chats[i].title == s.chats[i].title
      && s'.chats[i].agentId == s.chats[i].agentId
      && s'.chats[i].messages == s.chats[i].messages +
           [Message(Some(prefix + "_" + env.tag(s.clock)), Assistant, content, env.time(s.clock), false, isStep)]
  {
    var m := Message(Some(prefix + "_" + env.tag(s.clock)), Assistant, content, env.time(s.clock), false, isStep);
    AddMessageSpec(s.chats, s.currentId, m);
    TitleOnAdd(s.chats, s.currentId, m);
  }

  /** Appending one assistant message to the current chat extends what it has grown by. */
  lemma GrewByOneMore(s0: Store, s: Store, s': Store, x: Message, added: seq<Output>)
    requires FindChat(s0.chats, s0.currentId).Some?
    requires GrewBy(s0, s, added)
    requires x.role == Assistant && !x.isError
    requires var i := FindChat(s0.chats, s0.currentId).value;
      && s'.currentId == s.currentId
      && |s'.chats| == |s.chats|
      && (forall k :: 0 <= k < |s.chats| && k != i ==> s'.chats[k] == s.chats[k])
      && s'.chats[i].id == s.chats[i].id
      && s'.chats[i].title == s.chats[i].title
      && s'.chats[i].agentId == s.chats[i].agentId
      && s'.chats[i].messages == s.chats[i].messages + [x]
    ensures GrewBy(s0, s', added + [Output(x.content, x.isStep)])
  {
    var i := FindChat(s0.chats, s0.currentId).value;
    var before := s0.chats[i].messages;
    var msgs := s.chats[i].messages;
    var ms' := s'.chats[i].messages;
    assert ms'[..|before|] == msgs[..|before|];
    assert ms'[|before|..] == msgs[|before|..] + [x];
    assert (msgs[|before|..] + [x])[..|msgs| - |before|] == msgs[|before|..];
  }

  /** An emitted message extends what the current chat has grown by. */
  lemma EmitGrows(s0: Store, s: Store, prefix: string, content: string, isStep: bool, env: Env, added: seq<Output>)
    requires s0.currentId != "" && FindChat(s0.chats, s0.currentId).Some?
    requires GrewBy(s0, s, added)
    ensures GrewBy(s0, Emit(s, prefix, content, isStep, env), added + [Output(content, isStep)])
  {
    FindChatSameIds(s0.chats, s.chats, s0.currentId);
    EmitSpec(s, prefix, content, isStep, env);
    var x := Message(Some(prefix + "_" + env.tag(s.clock)), Assistant, content, env.time(s.clock), false, isStep);
    GrewByOneMore(s0, s, Emit(s, prefix, content, isStep, env), x, added);
  }

  /** Emitting a bubble appends its message to the current chat and nothing else. */
  lemma EmitBubbleGrows(s0: Store, s: Store, b: Bubble, env: Env, added: seq<Output>)
    requires s0.currentId != "" && FindChat(s0.chats, s0.currentId).Some?
    requires GrewBy(s0, s, added)
    ensures GrewBy(s0, EmitBubble(s, b, env), added + Shown(b))
  {
    match b
    case NoBubble =>
      assert added + Shown(b) == added;
    case StepBubble(prefix, content) =>
      EmitGrows(s0, s, prefix, content, true, env, added);
    case ContentBubble(prefix, content) =>
      EmitGrows(s0, s, prefix, content, false, env, added);
  }

  /**
   * A new-bubble loop (`useAdvancedStreamAPI`, or `useStreamingAPI` for other
   * agents) only appends to the current chat: the messages already there stay,
   * in place, and the new ones are exactly the step and content messages its
   * lines produce, in line order, all from the assistant and none an error.
   */
  lemma {:induction false} NewBubbleRun(m: Mode, o: Codec, env: Env, r: Run, lines: seq<string>)
    requires NewBubbles(m)
    requires r.store.currentId != "" && FindChat(r.store.chats, r.store.currentId).Some?
    ensures Lines(m, o, env, r, lines).lastId == r.lastId
    ensures GrewBy(r.store, Lines(m, o, env, r, lines).store, Outputs(m, o, lines))
    decreases |lines|
  {
    if |lines| == 0 {
      var i := FindChat(r.store.chats, r.store.currentId).value;
      assert r.store.chats[i].messages[|r.store.chats[i].messages|..] == [];
    } else {
      var init := lines[..|lines| - 1];
      var prev := Lines(m, o, env, r, init);
      var line := lines[|lines| - 1];
      NewBubbleRun(m, o, env, r, init);
      assert Lines(m, o, env, r, lines).store == EmitBubble(prev.store, Produced(m, o, line), env);
      EmitBubbleGrows(r.store, prev.store, Produced(m, o, line), env, Outputs(m, o, init));
    }
  }

  // ---------------------------------------------------------------------
  // processStreamDataCombined on one payload

  /**
   * Without an open bubble the payload is not looked at: the current chat gains
   * exactly one empty, non-step assistant message, and its id is returned.
   */
  lemma CombinedOpensEmptyBubble(s: Store, o: Codec, data: string, other: string, env: Env)
    requires s.currentId != "" && FindChat(s.chats, s.currentId).Some?
    ensures Combined(s, o, data, None, env) == Combined(s, o, other, None, env)
    ensures var r := Combined(s, o, data, None, env);
      && r.lastId == Some("stream_" + env.tag(s.clock))
      && GrewBy(s, r.store, [Output("", false)])
      && var ms := r.store.chats[FindChat(s.chats, s.currentId).value].messages;
         ms[|ms| - 1].id == r.lastId
  {
    var r := Combined(s, o, data, None, env);
    var i := FindChat(s.chats, s.currentId).value;
    var before := s.chats[i].messages;
    var ms := r.store.chats[i].messages;
    assert ms == before + [ms[|ms| - 1]];
    assert ms[..|before|] == before;
    assert ms[|before|..] == [ms[|ms| - 1]];
    assert [ms[|ms| - 1]][..0] == [];
    assert "stream" + "_" + env.tag(s.clock) == "stream_" + env.tag(s.clock);
  }

  /**
   * With an open bubble the same id is returned; `event:`, `Step `, `Agent ` and
   * agent-start payloads change nothing, and any other payload changes at most
   * the bubble's content, by appending its decoded text.
   */
  lemma CombinedKeepsBubble(s: Store, o: Codec, data: string, id: string, env: Env)
    requires ContentOf(s, id).Some?
    ensures Combined(s, o, data, Some(id), env).lastId == Some(id)
    ensures CombinedSkips(data) ==> Combined(s, o, data, Some(id), env) == Run(s, Some(id))
    ensures DecodePayload(o, data, true).None? ==> Combined(s, o, data, Some(id), env) == Run(s, Some(id))
    ensures SameLayout(s.chats, Combined(s, o, data, Some(id), env).store.chats)
    ensures Combined(s, o, data, Some(id), env).store.currentId == s.currentId
    ensures OnlyMessageChanged(s.chats, Combined(s, o, data, Some(id), env).store.chats, Slot(s, id).0, Slot(s, id).1)
    ensures ContentOf(Combined(s, o, data, Some(id), env).store, id) == Some(
      if CombinedSkips(data) || DecodePayload(o, data, true).None? then ContentOf(s, id).value
      else JoinContent(ContentOf(s, id).value, DecodePayload(o, data, true).value))
  {
    if !CombinedSkips(data) && DecodePayload(o, data, true).Some? {
      AppendJoins(s, id, DecodePayload(o, data, true).value, env);
    }
  }
}
