/**
 * The chat store object: its fields are updated in place by its actions, each
 * specified by the value-level meaning in `Sessions` and `Ingest`.
 */
module ChatStoreModel {
  import opened Wrappers
  import opened Text
  import opened JsonValues
  import opened Sessions
  import opened Agents
  import opened Ingest
  import opened SessionProperties

  /** What `sendMessageStream` resolves to: `false` for blank text, an
      `{ error }` object, or the boolean the chosen reader returns. */
  datatype SendResult = Declined | Refused(error: string) | Sent(ok: bool)

  const NoChatError := "请先创建新聊天或选择一个聊天"
  const AddFailedError := "无法添加消息，请先创建新聊天"

  /** The user's message as `sendMessageStream` builds it: no id, no flags. */
  function UserMessage(text: string, time: string): Message {
    Message(None, User, text, time, false, false)
  }

  /**
   * What `sendMessageStream` resolves to, and the store it leaves, for an
   * event-stream reply read as `chunks`: the guards, the user message, then
   * the reader chosen by the selected agent's `apiType`.
   */
  function Send(s: Store, agent: string, text: string, time: string, o: Codec, env: Env, chunks: seq<string>): (SendResult, Store) {
    if Trim(text) == "" then (Declined, s)
    else if s.currentId == "" then (Refused(NoChatError), s)
    else
      var (chats, added) := Sessions.AddMessage(s.chats, s.currentId, UserMessage(text, time));
      if !added then (Refused(AddFailedError), s)
      else
        (Sent(true), Reply(s.(chats := chats), agent, o, env, chunks))
  }

  /** The reply half of `sendMessageStream`, once the user message is stored:
      the reader chosen by the selected agent's `apiType`. */
  function Reply(s: Store, agent: string, o: Codec, env: Env, chunks: seq<string>): Store {
    if CurrentAgentConfig(agent).apiType == AdvancedApi then
      Chunks(AdvancedMode, o, env, Run(s, None), chunks).store
    else
      // The only other `apiType` among the agent profiles is `chat`.
      Chunks(ChatMode("stream_" + env.tag(s.clock)), o, env, Run(Emit(s, "stream", "", false, env), None), chunks).store
  }

  /**
   * The guards of `sendMessageStream`: blank text is declined, a missing
   * current chat is refused with the matching error and the store is left
   * alone; otherwise the user message is the last of the current chat when
   * the reader starts, and the reply is read into that chat.
   */
  lemma SendSpec(s: Store, agent: string, text: string, time: string, o: Codec, env: Env, chunks: seq<string>)
    ensures var r := Send(s, agent, text, time, o, env, chunks);
      && (Trim(text) == "" ==> r == (Declined, s))
      && (Trim(text) != "" && s.currentId == "" ==> r == (Refused(NoChatError), s))
      && (Trim(text) != "" && s.currentId != "" && (forall k :: 0 <= k < |s.chats| ==> s.chats[k].id != s.currentId) ==>
            r == (Refused(AddFailedError), s))
      && (r.0.Sent? <==> Trim(text) != "" && s.currentId != "" && FindChat(s.chats, s.currentId).Some?)
      && (r.0.Sent? ==> r.0 == Sent(true))
    ensures Trim(text) != "" && FindChat(s.chats, s.currentId).Some? && s.currentId != "" ==>
      var i := FindChat(s.chats, s.currentId).value;
      var s1 := s.(chats := Sessions.AddMessage(s.chats, s.currentId, UserMessage(text, time)).0);
      && s1.chats[i].messages == s.chats[i].messages + [UserMessage(text, time)]
      && |s1.chats| == |s.chats|
      && (forall k :: 0 <= k < |s.chats| && k != i ==> s1.chats[k] == s.chats[k])
      && Send(s, agent, text, time, o, env, chunks).1 == Reply(s1, agent, o, env, chunks)
  {
    AddMessageSpec(s.chats, s.currentId, UserMessage(text, time));
  }

  class ChatStore {
    var chatHistory: seq<Chat>
    var currentChatId: string
    var selectedAgent: string
    /** Whether an `EventSource` is held in `currentStream`. */
    var streamOpen: bool
    /** How many ids and timestamps the store has drawn so far. */
    var clock: nat

    /** The store as restored from local storage (`[]` and `''` when nothing was saved). */
    constructor (saved: seq<Chat>, savedId: string)
      ensures chatHistory == saved && currentChatId == savedId
      ensures selectedAgent == DefaultAgent && !streamOpen && clock == 0
    {
      chatHistory := saved;
      currentChatId := savedId;
      selectedAgent := DefaultAgent;
      streamOpen := false;
      clock := 0;
    }

    function Snapshot(): Store
      reads this
    {
      Store(chatHistory, currentChatId, clock)
    }

    /** The `currentChat` getter: the first chat whose id is the current id. */
    function CurrentChat(): (c: Option<Chat>)
      reads this
      ensures c.Some? ==> c.value in chatHistory && c.value.id == currentChatId
      ensures c.Some? ==> exists i :: 0 <= i < |chatHistory| && chatHistory[i] == c.value
                            && forall k :: 0 <= k < i ==> chatHistory[k].id != currentChatId
      ensures c.None? <==> forall k :: 0 <= k < |chatHistory| ==> chatHistory[k].id != currentChatId
    {
      match FindChat(chatHistory, currentChatId)
      case Some(i) => Some(chatHistory[i])
      case None => None
    }

    /** `createNewChat`: a fresh empty chat named after the clock becomes current. */
    method CreateNewChat(agentId: string, nowMs: nat, time: string) returns (id: string)
      modifies this
      ensures id == "chat_" + NatToString(nowMs)
      ensures chatHistory == old(chatHistory) + [NewChat(id, agentId, selectedAgent, time)]
      ensures currentChatId == id
      ensures selectedAgent == old(selectedAgent) && streamOpen == old(streamOpen) && clock == old(clock)
    {
      id := "chat_" + NatToString(nowMs);
      chatHistory := chatHistory + [NewChat(id, agentId, selectedAgent, time)];
      currentChatId := id;
    }

    /** `selectChat`: closes the open stream and switches chats, without checking
        that the chat exists. */
    method SelectChat(chatId: string)
      modifies this
      ensures currentChatId == chatId && !streamOpen
      ensures chatHistory == old(chatHistory) && selectedAgent == old(selectedAgent) && clock == old(clock)
    {
      streamOpen := false;
      currentChatId := chatId;
    }

    method AddMessage(m: Message) returns (added: bool)
      modifies this
      ensures (chatHistory, added) == Sessions.AddMessage(old(chatHistory), currentChatId, m)
      ensures currentChatId == old(currentChatId) && selectedAgent == old(selectedAgent)
      ensures streamOpen == old(streamOpen) && clock == old(clock)
    {
      var r := Sessions.AddMessage(chatHistory, currentChatId, m);
      chatHistory := r.0;
      added := r.1;
    }

    method DeleteChat(chatId: string)
      modifies this
      ensures (chatHistory, currentChatId) == Sessions.DeleteChat(old(chatHistory), old(currentChatId), chatId)
      ensures selectedAgent == old(selectedAgent) && streamOpen == old(streamOpen) && clock == old(clock)
    {
      var r := Sessions.DeleteChat(chatHistory, currentChatId, chatId);
      chatHistory := r.0;
      currentChatId := r.1;
    }

    method ClearMessages()
      modifies this
      ensures chatHistory == Sessions.ClearMessages(old(chatHistory), currentChatId)
      ensures currentChatId == old(currentChatId) && selectedAgent == old(selectedAgent)
      ensures streamOpen == old(streamOpen) && clock == old(clock)
    {
      chatHistory := Sessions.ClearMessages(chatHistory, currentChatId);
    }

    method AppendToMessage(messageId: string, content: string, now: string)
      modifies this
      ensures chatHistory == Sessions.AppendToMessage(old(chatHistory), currentChatId, messageId, content, now)
      ensures currentChatId == old(currentChatId) && selectedAgent == old(selectedAgent)
      ensures streamOpen == old(streamOpen) && clock == old(clock)
    {
      chatHistory := Sessions.AppendToMessage(chatHistory, currentChatId, messageId, content, now);
    }

    method SetSelectedAgent(agentId: string)
      modifies this
      ensures selectedAgent == agentId
      ensures chatHistory == old(chatHistory) && currentChatId == old(currentChatId)
      ensures streamOpen == old(streamOpen) && clock == old(clock)
    {
      selectedAgent := agentId;
    }

    /** `loadMessages`: the current chat's messages, or none. */
    method LoadMessages() returns (ms: seq<Message>)
      ensures CurrentChat().Some? ==> ms == CurrentChat().value.messages
      ensures CurrentChat().None? ==> ms == []
    {
      match FindChat(chatHistory, currentChatId)
      case Some(i) => ms := chatHistory[i].messages;
      case None => ms := [];
    }

    /** One pass of the `for (const line of lines)` body. */
    method ReadLine(m: Mode, o: Codec, env: Env, line: string, last: Option<string>) returns (last': Option<string>)
      modifies this
      ensures Run(Snapshot(), last') == Step(m, o, env, Run(old(Snapshot()), last), line)
      ensures selectedAgent == old(selectedAgent) && streamOpen == old(streamOpen)
      ensures currentChatId == old(currentChatId)
    {
      var r := Step(m, o, env, Run(Snapshot(), last), line);
      chatHistory := r.store.chats;
      clock := r.store.clock;
      last' := r.lastId;
    }

    /** The `for (const line of lines)` loop over one chunk. */
    method ReadLines(m: Mode, o: Codec, env: Env, lines: seq<string>, last: Option<string>) returns (last': Option<string>)
      modifies this
      ensures Run(Snapshot(), last') == Lines(m, o, env, Run(old(Snapshot()), last), lines)
      ensures selectedAgent == old(selectedAgent) && streamOpen == old(streamOpen)
      ensures currentChatId == old(currentChatId)
    {
      last' := last;
      var j := 0;
      while j < |lines|
        invariant 0 <= j <= |lines|
        invariant Run(Snapshot(), last') == Lines(m, o, env, Run(old(Snapshot()), last), lines[..j])
        invariant selectedAgent == old(selectedAgent) && streamOpen == old(streamOpen)
        invariant currentChatId == old(currentChatId)
      {
        ghost var before := Run(Snapshot(), last');
        last' := ReadLine(m, o, env, lines[j], last');
        assert lines[..j + 1][..j] == lines[..j] && lines[..j + 1][j] == lines[j];
        assert Lines(m, o, env, Run(old(Snapshot()), last), lines[..j + 1]) == Step(m, o, env, before, lines[j]);
        j := j + 1;
      }
      assert lines[..j] == lines;
    }

    /** The `while (true)` read loop: each decoded chunk is split at `\n`. */
    method ReadChunks(m: Mode, o: Codec, env: Env, chunks: seq<string>, last: Option<string>) returns (last': Option<string>)
      modifies this
      ensures Run(Snapshot(), last') == Chunks(m, o, env, Run(old(Snapshot()), last), chunks)
      ensures selectedAgent == old(selectedAgent) && streamOpen == old(streamOpen)
      ensures currentChatId == old(currentChatId)
    {
      last' := last;
      var i := 0;
      while i < |chunks|
        invariant 0 <= i <= |chunks|
        invariant Run(Snapshot(), last') == Chunks(m, o, env, Run(old(Snapshot()), last), chunks[..i])
        invariant selectedAgent == old(selectedAgent) && streamOpen == old(streamOpen)
        invariant currentChatId == old(currentChatId)
      {
        ghost var before := Run(Snapshot(), last');
        last' := ReadLines(m, o, env, Split(chunks[i]), last');
        assert chunks[..i + 1][..i] == chunks[..i] && chunks[..i + 1][i] == chunks[i];
        assert Chunks(m, o, env, Run(old(Snapshot()), last), chunks[..i + 1])
            == Lines(m, o, env, before, Split(chunks[i]));
        i := i + 1;
      }
      assert chunks[..i] == chunks;
    }

    /** `useAdvancedStreamAPI` on an event-stream reply: `false` without a current
        chat, otherwise every line is read in new-bubble form. */
    method UseAdvancedStreamAPI(o: Codec, env: Env, chunks: seq<string>) returns (ok: bool)
      modifies this
      ensures ok <==> FindChat(old(chatHistory), old(currentChatId)).Some?
      ensures !ok ==> Snapshot() == old(Snapshot())
      ensures ok ==> Snapshot() == Chunks(AdvancedMode, o, env, Run(old(Snapshot()), None), chunks).store
      ensures selectedAgent == old(selectedAgent) && streamOpen == old(streamOpen)
      ensures currentChatId == old(currentChatId)
    {
      if FindChat(chatHistory, currentChatId).None? {
        return false;
      }
      var _ := ReadChunks(AdvancedMode, o, env, chunks, None);
      ok := true;
    }

    /** `useStreamingAPI` on an event-stream reply: single-bubble for the `chat`
        agent type, new bubbles otherwise. */
    method UseStreamingAPI(agentType: string, o: Codec, env: Env, chunks: seq<string>) returns (ok: bool)
      modifies this
      ensures ok <==> FindChat(old(chatHistory), old(currentChatId)).Some?
      ensures !ok ==> Snapshot() == old(Snapshot())
      ensures ok ==> Snapshot() == Chunks(StreamingMode(agentType == ChatApi), o, env, Run(old(Snapshot()), None), chunks).store
      ensures selectedAgent == old(selectedAgent) && streamOpen == old(streamOpen)
      ensures currentChatId == old(currentChatId)
    {
      if FindChat(chatHistory, currentChatId).None? {
        return false;
      }
      var _ := ReadChunks(StreamingMode(agentType == ChatApi), o, env, chunks, None);
      ok := true;
    }

    /** The reply half of `sendMessageStream`: the stream is closed and the
        reply read by the reader the selected agent calls for. */
    method StreamReply(o: Codec, env: Env, chunks: seq<string>)
      requires FindChat(chatHistory, currentChatId).Some?
      modifies this
      ensures Snapshot() == Reply(old(Snapshot()), old(selectedAgent), o, env, chunks)
      ensures !streamOpen && selectedAgent == old(selectedAgent)
      ensures currentChatId == old(currentChatId)
    {
      streamOpen := false;
      var agentConfig := CurrentAgentConfig(selectedAgent);
      if agentConfig.apiType == AdvancedApi {
        var _ := UseAdvancedStreamAPI(o, env, chunks);
      } else {
        // The only other `apiType` among the agent profiles is `chat`.
        var initialResponseId := "stream_" + env.tag(clock);
        var s2 := Emit(Snapshot(), "stream", "", false, env);
        chatHistory := s2.chats;
        clock := s2.clock;
        var _ := ReadChunks(ChatMode(initialResponseId), o, env, chunks, None);
      }
    }

    /**
     * `sendMessageStream` with an event-stream reply: the guards, the user
     * message, then the reader chosen by the selected agent's `apiType`.
     */
    method SendMessageStream(text: string, time: string, o: Codec, env: Env, chunks: seq<string>) returns (res: SendResult)
      modifies this
      ensures (res, Snapshot()) == Send(old(Snapshot()), old(selectedAgent), text, time, o, env, chunks)
      ensures streamOpen == if res.Sent? then false else old(streamOpen)
      ensures selectedAgent == old(selectedAgent) && currentChatId == old(currentChatId)
    {
      if Trim(text) == "" {
        return Declined;
      }
      if currentChatId == "" {
        return Refused(NoChatError);
      }
      var user := UserMessage(text, time);
      var added := AddMessage(user);
      if !added {
        return Refused(AddFailedError);
      }
      FindChatSameIds(old(chatHistory), chatHistory, currentChatId);
      StreamReply(o, env, chunks);
      res := Sent(true);
    }
  }
}
