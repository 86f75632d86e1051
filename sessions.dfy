/**
 * Chat sessions as values: the records the chat store keeps in `chatHistory`
 * and the pure meaning of each store action on them. The store class in
 * `ChatStoreModel` changes its fields in place and is specified by these.
 */
module Sessions {
  import opened Wrappers
  import opened Text

  datatype Role = User | Assistant

  /** A chat message. User and error messages carry no id (`None` stands for
      JavaScript's `undefined`, which no looked-up id ever equals). */
  datatype Message = Message(
    id: Option<string>,
    role: Role,
    content: string,
    timestamp: string,
    isError: bool,
    isStep: bool)

  datatype Chat = Chat(
    id: string,
    title: string,
    messages: seq<Message>,
    agentId: string,
    lastMessageTime: string)

  const DefaultTitle := "New Conversation"
  const TitleLength := 20

  /** `chats.findIndex(chat => chat.id === id)`: the first chat with that id. */
  function FindChat(chats: seq<Chat>, id: string): (r: Option<nat>)
    ensures r.Some? ==> r.value < |chats| && chats[r.value].id == id
    ensures r.Some? ==> forall k :: 0 <= k < r.value ==> chats[k].id != id
    ensures r.None? <==> forall k :: 0 <= k < |chats| ==> chats[k].id != id
    decreases |chats|
  {
    if |chats| == 0 then None
    else if chats[0].id == id then Some(0)
    else
      match FindChat(chats[1..], id)
      case Some(k) => Some(k + 1)
      case None => None
  }

  /** `messages.find(msg => msg.id === id)`, as an index. */
  function FindMessage(msgs: seq<Message>, id: string): (r: Option<nat>)
    ensures r.Some? ==> r.value < |msgs| && msgs[r.value].id == Some(id)
    ensures r.Some? ==> forall k :: 0 <= k < r.value ==> msgs[k].id != Some(id)
    ensures r.None? <==> forall k :: 0 <= k < |msgs| ==> msgs[k].id != Some(id)
    decreases |msgs|
  {
    if |msgs| == 0 then None
    else if msgs[0].id == Some(id) then Some(0)
    else
      match FindMessage(msgs[1..], id)
      case Some(k) => Some(k + 1)
      case None => None
  }

  /** `messages.filter(m => m.role === 'user').length`. */
  function UserCount(msgs: seq<Message>): nat
    decreases |msgs|
  {
    if |msgs| == 0 then 0
    else (if msgs[0].role == User then 1 else 0) + UserCount(msgs[1..])
  }

  /** The title derived from a first user message. */
  function Title(content: string): string {
    if |content| > TitleLength then content[..TitleLength] + "..." else content
  }

  /** The in-place changes `addMessage` makes to the chat it found. */
  function Push(c: Chat, m: Message): Chat {
    var msgs := c.messages + [m];
    c.(messages := msgs,
       title := if m.role == User && UserCount(msgs) == 1 then Title(m.content) else c.title,
       lastMessageTime := m.timestamp)
  }

  /** `addMessage`: false and no change without a current chat; otherwise the
      message goes into the first chat with the current id. */
  function AddMessage(chats: seq<Chat>, currentId: string, m: Message): (seq<Chat>, bool) {
    if currentId == "" then (chats, false)
    else
      match FindChat(chats, currentId)
      case None => (chats, false)
      case Some(i) => (chats[i := Push(chats[i], m)], true)
  }

  /** `message.content` after `appendToMessage`: one separating space unless the
      old content is empty or already ends in a space. */
  function JoinContent(prior: string, text: string): string {
    (if prior != "" && !EndsWith(prior, " ") then prior + " " else prior) + text
  }

  /** `appendToMessage`: a missing current chat or message id changes nothing. */
  function AppendToMessage(chats: seq<Chat>, currentId: string, messageId: string, text: string, now: string): seq<Chat> {
    match FindChat(chats, currentId)
    case None => chats
    case Some(i) =>
      match FindMessage(chats[i].messages, messageId)
      case None => chats
      case Some(j) =>
        var msg := chats[i].messages[j];
        chats[i := chats[i].(messages := chats[i].messages[j := msg.(content := JoinContent(msg.content, text), timestamp := now)])]
  }

  /** `deleteChat`: the new history and current id. */
  function DeleteChat(chats: seq<Chat>, currentId: string, id: string): (seq<Chat>, string) {
    match FindChat(chats, id)
    case None => (chats, currentId)
    case Some(i) =>
      var rest := chats[..i] + chats[i + 1..];
      (rest, if currentId == id then (if |rest| > 0 then rest[0].id else "") else currentId)
  }

  /** `clearMessages`: the current chat loses its messages (and keeps its title). */
  function ClearMessages(chats: seq<Chat>, currentId: string): seq<Chat> {
    match FindChat(chats, currentId)
    case None => chats
    case Some(i) => chats[i := chats[i].(messages := [])]
  }

  /** The chat `createNewChat` pushes; `agentId || selectedAgent` picks the agent. */
  function NewChat(id: string, agentId: string, selectedAgent: string, time: string): Chat {
    Chat(id, DefaultTitle, [], if agentId != "" then agentId else selectedAgent, time)
  }

  /** The current id names a chat, or is empty. */
  predicate CurrentValid(chats: seq<Chat>, currentId: string) {
    currentId == "" || FindChat(chats, currentId).Some?
  }

  /** Chat lookup sees only chat ids. */
  lemma FindChatSameIds(a: seq<Chat>, b: seq<Chat>, x: string)
    requires |a| == |b| && forall k :: 0 <= k < |a| ==> a[k].id == b[k].id
    ensures FindChat(a, x) == FindChat(b, x)
  {
    if FindChat(a, x).Some? {
      var i := FindChat(a, x).value;
      assert b[i].id == x;
      assert FindChat(b, x).Some?;
      var i' := FindChat(b, x).value;
      assert a[i'].id == x;
      assert i <= i' && i' <= i;
    } else {
      assert forall k :: 0 <= k < |b| ==> b[k].id != x;
    }
  }

  /** Message lookup sees only message ids. */
  lemma FindMessageSameIds(a: seq<Message>, b: seq<Message>, x: string)
    requires |a| == |b| && forall k :: 0 <= k < |a| ==> a[k].id == b[k].id
    ensures FindMessage(a, x) == FindMessage(b, x)
  {
    if FindMessage(a, x).Some? {
      var i := FindMessage(a, x).value;
      assert b[i].id == Some(x);
      assert FindMessage(b, x).Some?;
      var i' := FindMessage(b, x).value;
      assert a[i'].id == Some(x);
      assert i <= i' && i' <= i;
    } else {
      assert forall k :: 0 <= k < |b| ==> b[k].id != Some(x);
    }
  }
}
