/** What the chat-store actions promise about the session list. */
module SessionProperties {
  import opened Wrappers
  import opened Text
  import opened Sessions
  import opened Sequences

  /**
   * `addMessage` refuses (false, nothing changed) without a current id or when
   * no chat has it; otherwise the message is appended last in the first chat
   * with that id, whose `lastMessageTime` becomes the message's timestamp, and
   * every other chat is left as it was.
   */
  lemma AddMessageSpec(chats: seq<Chat>, currentId: string, m: Message)
    ensures AddMessage(chats, currentId, m).1 <==> currentId != "" && exists k :: 0 <= k < |chats| && chats[k].id == currentId
    ensures !AddMessage(chats, currentId, m).1 ==> AddMessage(chats, currentId, m).0 == chats
    ensures AddMessage(chats, currentId, m).1 ==>
      var after := AddMessage(chats, currentId, m).0;
      var i := FindChat(chats, currentId).value;
      && |after| == |chats|
      && after[i].messages == chats[i].messages + [m]
      && after[i].lastMessageTime == m.timestamp
      && after[i].id == chats[i].id && after[i].agentId == chats[i].agentId
      && forall k :: 0 <= k < |chats| && k != i ==> after[k] == chats[k]
  {
  }

  lemma {:induction false} UserCountAppend(msgs: seq<Message>, m: Message)
    ensures UserCount(msgs + [m]) == UserCount(msgs) + (if m.role == User then 1 else 0)
    decreases |msgs|
  {
    if |msgs| == 0 {
      assert [m][1..] == [];
    } else {
      assert (msgs + [m])[1..] == msgs[1..] + [m];
      UserCountAppend(msgs[1..], m);
    }
  }

  lemma {:induction false} UserCountConcat(a: seq<Message>, b: seq<Message>)
    ensures UserCount(a + b) == UserCount(a) + UserCount(b)
    decreases |b|
  {
    if |b| == 0 {
      assert a + b == a;
    } else {
      var b' := b[..|b| - 1];
      var x := b[|b| - 1];
      assert a + b == (a + b') + [x];
      assert b == b' + [x];
      UserCountConcat(a, b');
      UserCountAppend(a + b', x);
      UserCountAppend(b', x);
    }
  }

  /** The chat title on a successful `addMessage`: a user message becomes the
      title when it is the chat's first user message; otherwise the title stays. */
  lemma TitleOnAdd(chats: seq<Chat>, currentId: string, m: Message)
    requires AddMessage(chats, currentId, m).1
    ensures var i := FindChat(chats, currentId).value;
      AddMessage(chats, currentId, m).0[i].title ==
        if m.role == User && UserCount(chats[i].messages) == 0 then Title(m.content) else chats[i].title
  {
    var i := FindChat(chats, currentId).value;
    UserCountAppend(chats[i].messages, m);
  }

  /** The title is the first 20 characters, followed by `...` exactly when the
      content is longer than that. */
  lemma TitleShape(content: string)
    ensures |content| <= TitleLength ==> Title(content) == content
    ensures |content| > TitleLength ==> Title(content) == content[..TitleLength] + "..."
    ensures |Title(content)| == if |content| > TitleLength then TitleLength + 3 else |content|
    ensures EndsWith(Title(content), "...") <== |content| > TitleLength
  {
  }

  /** Pushing messages one after another, as successive `addMessage` calls do. */
  function PushAll(c: Chat, ms: seq<Message>): Chat
    decreases |ms|
  {
    if |ms| == 0 then c else Push(PushAll(c, ms[..|ms| - 1]), ms[|ms| - 1])
  }

  /** Index of the first user message. */
  function FirstUser(ms: seq<Message>): (r: Option<nat>)
    ensures r.Some? ==> r.value < |ms| && ms[r.value].role == User
    ensures r.None? <==> forall k :: 0 <= k < |ms| ==> ms[k].role != User
    decreases |ms|
  {
    if |ms| == 0 then None
    else
      match FirstUser(ms[..|ms| - 1])
      case Some(k) => Some(k)
      case None => if ms[|ms| - 1].role == User then Some(|ms| - 1) else None
  }

  lemma {:induction false} UserCountZero(ms: seq<Message>)
    ensures UserCount(ms) == 0 <==> forall k :: 0 <= k < |ms| ==> ms[k].role != User
    decreases |ms|
  {
    if |ms| > 0 {
      UserCountZero(ms[1..]);
      assert forall k :: 1 <= k < |ms| ==> ms[k] == ms[1..][k - 1];
    }
  }

  /**
   * Starting from a chat without user messages, after any sequence of messages
   * the title is derived from the first user message among them, and no later
   * message changes it; without a user message it is unchanged.
   */
  lemma {:induction false} TitleIsFirstUserMessage(c: Chat, ms: seq<Message>)
    requires UserCount(c.messages) == 0
    ensures PushAll(c, ms).messages == c.messages + ms
    ensures PushAll(c, ms).title == match FirstUser(ms)
      case Some(k) => Title(ms[k].content)
      case None => c.title
    decreases |ms|
  {
    if |ms| > 0 {
      var ms' := ms[..|ms| - 1];
      var x := ms[|ms| - 1];
      TitleIsFirstUserMessage(c, ms');
      var prev := PushAll(c, ms');
      assert ms == ms' + [x];
      UserCountAppend(prev.messages, x);
      UserCountConcat(c.messages, ms');
      UserCountZero(ms');
    }
  }

  /** Appending text: the old content is kept as a prefix, followed by one space
      only when the old content is non-empty and does not already end in one. */
  lemma JoinContentSpec(prior: string, text: string)
    ensures prior == "" || EndsWith(prior, " ") ==> JoinContent(prior, text) == prior + text
    ensures prior != "" && !EndsWith(prior, " ") ==> JoinContent(prior, text) == prior + " " + text
    ensures StartsWith(JoinContent(prior, text), prior)
  {
    var r := JoinContent(prior, text);
    assert r[..|prior|] == prior;
  }

  /** `parts.join(' ')`. */
  function SpaceJoin(parts: seq<string>): string
    decreases |parts|
  {
    if |parts| == 0 then ""
    else if |parts| == 1 then parts[0]
    else SpaceJoin(parts[..|parts| - 1]) + " " + parts[|parts| - 1]
  }

  /** Successive appends to one message, starting from its content. */
  function AppendAll(start: string, parts: seq<string>): string
    decreases |parts|
  {
    if |parts| == 0 then start else JoinContent(AppendAll(start, parts[..|parts| - 1]), parts[|parts| - 1])
  }

  /**
   * Appending non-empty pieces that do not end in a space to an empty message
   * gives the pieces joined by single spaces (so `A`, `B`, `C` give `A B C`).
   */
  lemma {:induction false} AppendAllSpaceJoins(parts: seq<string>)
    requires forall k :: 0 <= k < |parts| ==> parts[k] != "" && !EndsWith(parts[k], " ")
    ensures AppendAll("", parts) == SpaceJoin(parts)
    ensures |parts| > 0 ==> AppendAll("", parts) != "" && !EndsWith(AppendAll("", parts), " ")
    decreases |parts|
  {
    if |parts| > 0 {
      var ps := parts[..|parts| - 1];
      var x := parts[|parts| - 1];
      AppendAllSpaceJoins(ps);
      var r := JoinContent(SpaceJoin(ps), x);
      if |ps| == 0 {
        assert r == x;
      } else {
        assert r == SpaceJoin(ps) + " " + x;
      }
      assert r[|r| - |x|..] == x;
      assert r[|r| - 1] == x[|x| - 1];
    }
  }

  lemma AppendABC()
    ensures AppendAll("", ["A", "B", "C"]) == "A B C"
  {
    var ps := ["A", "B", "C"];
    assert ps[..2] == ["A", "B"] && ps[..2][..1] == ["A"] && ps[..2][..1][..0] == [];
    assert AppendAll("", ["A"]) == "A";
    assert !EndsWith("A", " ") by { assert "A"[0..] == "A"; }
    assert AppendAll("", ["A", "B"]) == "A B";
    assert !EndsWith("A B", " ") by { assert "A B"[2..] == "B"; }
  }

  /**
   * `appendToMessage` changes nothing without a current chat or without a
   * message of that id in it; otherwise exactly the first such message gets the
   * joined content and the new timestamp, and keeps its id, role and flags.
   */
  lemma AppendToMessageSpec(chats: seq<Chat>, currentId: string, messageId: string, text: string, now: string)
    ensures FindChat(chats, currentId).None? ==> AppendToMessage(chats, currentId, messageId, text, now) == chats
    ensures (FindChat(chats, currentId).Some?
      && FindMessage(chats[FindChat(chats, currentId).value].messages, messageId).None?)
      ==> AppendToMessage(chats, currentId, messageId, text, now) == chats
    ensures (FindChat(chats, currentId).Some?
      && FindMessage(chats[FindChat(chats, currentId).value].messages, messageId).Some?)
      ==>
      var i := FindChat(chats, currentId).value;
      var j := FindMessage(chats[i].messages, messageId).value;
      var after := AppendToMessage(chats, currentId, messageId, text, now);
      var msg := chats[i].messages[j];
      && |after| == |chats| && |after[i].messages| == |chats[i].messages|
      && after[i].messages[j] == msg.(content := JoinContent(msg.content, text), timestamp := now)
      && (forall k :: 0 <= k < |chats[i].messages| && k != j ==> after[i].messages[k] == chats[i].messages[k])
      && (forall k :: 0 <= k < |chats| && k != i ==> after[k] == chats[k])
      && after[i] == chats[i].(messages := after[i].messages)
  {
  }

  /**
   * `deleteChat`: an unknown id changes nothing; otherwise exactly the first
   * chat with that id is removed, the others keep their order, and the current
   * id moves to the first remaining chat (or `''`) only when the deleted chat
   * was the current one.
   */
  lemma DeleteChatSpec(chats: seq<Chat>, currentId: string, id: string)
    ensures FindChat(chats, id).None? ==> DeleteChat(chats, currentId, id) == (chats, currentId)
    ensures FindChat(chats, id).Some? ==>
      var i := FindChat(chats, id).value;
      var (rest, cur) := DeleteChat(chats, currentId, id);
      && |rest| == |chats| - 1
      && (forall k :: 0 <= k < i ==> rest[k] == chats[k])
      && (forall k :: i <= k < |rest| ==> rest[k] == chats[k + 1])
      && multiset(rest) + multiset{chats[i]} == multiset(chats)
      && (currentId == id ==> cur == if |rest| > 0 then rest[0].id else "")
      && (currentId != id ==> cur == currentId)
  {
    if FindChat(chats, id).Some? {
      var i := FindChat(chats, id).value;
      assert DeleteChat(chats, currentId, id).0 == chats[..i] + chats[i + 1..];
      SpliceOut(chats, i);
    }
  }

  /** Deleting a chat keeps the current id naming an existing chat (or empty). */
  lemma DeletePreservesCurrentValid(chats: seq<Chat>, currentId: string, id: string)
    requires CurrentValid(chats, currentId)
    ensures CurrentValid(DeleteChat(chats, currentId, id).0, DeleteChat(chats, currentId, id).1)
  {
    DeleteChatSpec(chats, currentId, id);
    var (rest, cur) := DeleteChat(chats, currentId, id);
    if FindChat(chats, id).Some? && cur != "" {
      var i := FindChat(chats, id).value;
      if currentId == id {
        assert rest[0].id == cur;
      } else {
        var f := FindChat(chats, currentId).value;
        if f < i {
          assert rest[f].id == cur;
        } else {
          assert rest[f - 1].id == cur;
        }
      }
    }
  }

  /**
   * `clearMessages`: without a current chat nothing changes. Otherwise the
   * current chat keeps its place, id, title and agent and loses every message,
   * every other chat is untouched, and the current id still finds it.
   */
  lemma ClearMessagesSpec(chats: seq<Chat>, currentId: string)
    ensures FindChat(chats, currentId).None? ==> ClearMessages(chats, currentId) == chats
    ensures FindChat(chats, currentId).Some? ==>
      var i := FindChat(chats, currentId).value;
      var after := ClearMessages(chats, currentId);
      && |after| == |chats|
      && after[i] == chats[i].(messages := [])
      && (forall k :: 0 <= k < |chats| && k != i ==> after[k] == chats[k])
      && FindChat(after, currentId) == Some(i)
    ensures CurrentValid(chats, currentId) ==> CurrentValid(ClearMessages(chats, currentId), currentId)
  {
    FindChatSameIds(chats, ClearMessages(chats, currentId), currentId);
  }

  /** After `clearMessages` the chat has no user message, so the next user
      message retitles it. */
  lemma ClearThenRetitle(chats: seq<Chat>, currentId: string, m: Message)
    requires currentId != "" && FindChat(chats, currentId).Some?
    requires m.role == User
    ensures var cleared := ClearMessages(chats, currentId);
      var i := FindChat(chats, currentId).value;
      AddMessage(cleared, currentId, m).1 && AddMessage(cleared, currentId, m).0[i].title == Title(m.content)
  {
    var cleared := ClearMessages(chats, currentId);
    var i := FindChat(chats, currentId).value;
    FindChatSameIds(chats, cleared, currentId);
    assert cleared[i].messages == [];
    assert UserCount(cleared[i].messages) == 0;
    TitleOnAdd(cleared, currentId, m);
  }

  /** After `createNewChat` the new chat is the current one exactly when no
      older chat has the same id (ids come from the clock and may collide). */
  lemma NewChatBecomesCurrent(chats: seq<Chat>, id: string, agentId: string, selectedAgent: string, time: string)
    ensures var after := chats + [NewChat(id, agentId, selectedAgent, time)];
      && CurrentValid(after, id)
      && (FindChat(after, id) == Some(|chats|) <==> FindChat(chats, id).None?)
  {
    var after := chats + [NewChat(id, agentId, selectedAgent, time)];
    assert after[|chats|].id == id;
    if FindChat(chats, id).Some? {
      var f := FindChat(chats, id).value;
      assert after[f].id == id;
    }
  }
}
