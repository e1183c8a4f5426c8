/**
 * The conversation bookkeeping of the API context provider: the long-term
 * memory text of a message, the history window sent to the model, the
 * retrieved-memory block, the ids held in short-term memory, and the stored
 * chat-history list as loading, saving and clearing a conversation change it.
 *
 * The stored history is the list the chat-history storage holds; session ids
 * and clock readings are parameters.
 */
module ApiContext {
  import opened Wrappers
  import opened Text

  datatype Role = User | Assistant | System

  /** A chat message; absent image lists are empty. */
  datatype Message = Message(role: Role, content: string, id: Option<int>, images: seq<string>, imageIds: seq<string>)

  function Min(a: int, b: int): int { if a <= b then a else b }

  // ---------------------------------------------------------------------------
  // toLtmText
  // ---------------------------------------------------------------------------

  predicate HasImages(m: Message) { m.imageIds != [] || m.images != [] }

  /** `ids=…` when there are image ids, then `count=…` when there are images. */
  function ImageParts(m: Message): seq<string>
  {
    (if m.imageIds != [] then ["ids=" + Join(m.imageIds, ",")] else [])
    + (if m.images != [] then ["count=" + NatToString(|m.images|)] else [])
  }

  function ImageTag(m: Message): string
  {
    "[attached_images " + Join(ImageParts(m), " ") + "]"
  }

  /** `toLtmText`: the content with an image reference line appended when there are images, trimmed. */
  function ToLtmText(m: Message): string
  {
    if HasImages(m) then Trim(m.content + "\n" + ImageTag(m)) else Trim(m.content)
  }

  /**
   * Without images the text is the trimmed content. With images it ends with
   * the reference tag, on its own line after the content when there is any.
   */
  lemma ToLtmTextSpec(m: Message)
    ensures !HasImages(m) ==> ToLtmText(m) == Trim(m.content)
    ensures HasImages(m) ==>
      ToLtmText(m) == (if TrimStart(m.content) == [] then ImageTag(m) else TrimStart(m.content) + "\n" + ImageTag(m))
  {
    if HasImages(m) {
      var tag := ImageTag(m);
      assert tag[0] == '[' && tag[|tag| - 1] == ']';
      assert AllSpace("\n");
      TrimBeforeTag(m.content, "\n", tag);
    }
  }

  /** The tag names the ids exactly when there are ids and the count exactly when there are images. */
  lemma ImagePartsSpec(m: Message)
    ensures HasImages(m) <==> ImageParts(m) != []
    ensures |ImageParts(m)| == (if m.imageIds != [] then 1 else 0) + (if m.images != [] then 1 else 0)
    ensures m.images != [] ==> ImageParts(m)[|ImageParts(m)| - 1] == "count=" + NatToString(|m.images|)
    ensures m.imageIds != [] ==> ImageParts(m)[0] == "ids=" + Join(m.imageIds, ",")
  {
  }

  // ---------------------------------------------------------------------------
  // limitConversationHistory
  // ---------------------------------------------------------------------------

  /** `limitConversationHistory`: everything for display, `slice(-memoryBuffer * 2)` for the model. */
  function LimitConversationHistory(messages: seq<Message>, forAiContext: bool, memoryBuffer: int): seq<Message>
  {
    if forAiContext then Slice(messages, -memoryBuffer * 2, |messages|) else messages
  }

  /** The model sees the last `2 * memoryBuffer` messages (all of them when there are fewer); display sees all. */
  lemma LimitSpec(messages: seq<Message>, forAiContext: bool, memoryBuffer: int)
    ensures !forAiContext ==> LimitConversationHistory(messages, forAiContext, memoryBuffer) == messages
    ensures forAiContext && memoryBuffer >= 1 ==>
      var n := Min(|messages|, 2 * memoryBuffer);
      && |LimitConversationHistory(messages, forAiContext, memoryBuffer)| == n
      && LimitConversationHistory(messages, forAiContext, memoryBuffer) == messages[|messages| - n..]
    ensures forAiContext && memoryBuffer == 0 ==> LimitConversationHistory(messages, forAiContext, memoryBuffer) == messages
  {
  }

  // ---------------------------------------------------------------------------
  // formatMemoriesForRAG
  // ---------------------------------------------------------------------------

  function SystemMessage(content: string): Message { Message(System, content, None, [], []) }

  function MemoryPrefix(r: Role): string
  {
    if r == User then "(From past conversation) User asked: " else "(From past conversation) ALTER EGO replied: "
  }

  function RagHeader(persona: string): string
  {
    "The following are relevant past conversations with " + persona + " retrieved from long-term memory:"
  }

  const RagFooter: string := "End of past memories. Return to current conversation:"

  function FormatMemory(m: Message): Message { SystemMessage(MemoryPrefix(m.role) + m.content) }

  /** `formatMemoriesForRAG`: nothing for no memories, else a header, the memories as system messages and a footer. */
  function FormatMemoriesForRag(memories: seq<Message>, persona: string): seq<Message>
  {
    if memories == [] then []
    else [SystemMessage(RagHeader(persona))] + Map(memories, FormatMemory) + [SystemMessage(RagFooter)]
  }

  /** Two more messages than memories, all system messages, the memories in order between header and footer. */
  lemma FormatMemoriesSpec(memories: seq<Message>, persona: string)
    ensures var r := FormatMemoriesForRag(memories, persona);
      && (memories == [] <==> r == [])
      && (memories != [] ==>
            && |r| == |memories| + 2
            && r[0].content == RagHeader(persona) && r[|r| - 1].content == RagFooter
            && (forall k | 0 <= k < |memories| :: r[k + 1].content == MemoryPrefix(memories[k].role) + memories[k].content))
      && (forall k | 0 <= k < |r| :: r[k].role == System && r[k].images == [] && r[k].id == None)
  {
    var r := FormatMemoriesForRag(memories, persona);
    if memories != [] {
      var mid := Map(memories, FormatMemory);
      assert forall k | 0 <= k < |memories| :: r[k + 1] == mid[k];
    }
  }

  // ---------------------------------------------------------------------------
  // getShortTermMemoryIds
  // ---------------------------------------------------------------------------

  /** `getShortTermMemoryIds`: the defined ids, in order (`filter` then `map`). */
  function ShortTermMemoryIds(history: seq<Message>): seq<int>
  {
    if history == [] then []
    else (if history[0].id.Some? then [history[0].id.value] else []) + ShortTermMemoryIds(history[1..])
  }

  /** An id is listed exactly when some message carries it, and never more ids than messages. */
  lemma {:induction false} ShortTermIdsMembers(history: seq<Message>)
    ensures |ShortTermMemoryIds(history)| <= |history|
    ensures forall x :: x in ShortTermMemoryIds(history) <==> exists k | 0 <= k < |history| :: history[k].id == Some(x)
  {
    if history != [] {
      ShortTermIdsMembers(history[1..]);
      forall x | (exists k | 0 <= k < |history| :: history[k].id == Some(x)) ensures x in ShortTermMemoryIds(history) {
        var k :| 0 <= k < |history| && history[k].id == Some(x);
        if k > 0 {
          assert history[1..][k - 1].id == Some(x);
        }
      }
      forall x | x in ShortTermMemoryIds(history[1..]) ensures exists k | 0 <= k < |history| :: history[k].id == Some(x) {
        var k :| 0 <= k < |history[1..]| && history[1..][k].id == Some(x);
        assert history[k + 1].id == Some(x);
      }
    }
  }

  /** The ids of two consecutive stretches of history are the ids of each, in order. */
  lemma {:induction false} ShortTermIdsAppend(a: seq<Message>, b: seq<Message>)
    ensures ShortTermMemoryIds(a + b) == ShortTermMemoryIds(a) + ShortTermMemoryIds(b)
  {
    if a != [] {
      assert (a + b)[1..] == a[1..] + b;
      ShortTermIdsAppend(a[1..], b);
    } else {
      assert a + b == b;
    }
  }

  // ---------------------------------------------------------------------------
  // The stored chat history
  // ---------------------------------------------------------------------------

  /** A message as the chat-history storage keeps it: no id and no images. */
  datatype StoredMessage = StoredMessage(role: Role, content: string, timestamp: string)

  datatype ChatEntry = ChatEntry(id: string, persona: string, timestamp: string, messages: seq<StoredMessage>)

  function Stored(now: string): Message -> StoredMessage
  {
    (m: Message) => StoredMessage(m.role, m.content, now)
  }

  /** A stored message as `loadPersonaHistory` reads it back: role and content only. */
  function Restored(m: StoredMessage): Message { Message(m.role, m.content, None, [], []) }

  function Strip(m: Message): Message { Message(m.role, m.content, None, [], []) }

  /** Saving and loading keeps each message's role and content, in order, and drops its id and images. */
  lemma StoreRestore(messages: seq<Message>, now: string)
    ensures Map(Map(messages, Stored(now)), Restored) == Map(messages, Strip)
  {
  }

  function OfPersona(persona: string): ChatEntry -> bool
  {
    (e: ChatEntry) => e.persona == persona
  }

  function WithId(id: string): ChatEntry -> bool
  {
    (e: ChatEntry) => e.id == id
  }

  /** `loadPersonaHistory`'s storage effect: a new empty session when the persona has none. */
  function WithSession(h: seq<ChatEntry>, persona: string, newId: string, now: string): seq<ChatEntry>
  {
    if FirstIndex(h, OfPersona(persona)) >= 0 then h else h + [ChatEntry(newId, persona, now, [])]
  }

  /** Exactly one empty session is appended when the persona has none; otherwise nothing changes. */
  lemma WithSessionSpec(h: seq<ChatEntry>, persona: string, newId: string, now: string)
    ensures var r := WithSession(h, persona, newId, now);
      && FirstIndex(r, OfPersona(persona)) >= 0
      && ((exists k | 0 <= k < |h| :: h[k].persona == persona) ==> r == h)
      && ((forall k | 0 <= k < |h| :: h[k].persona != persona) ==>
            r == h + [ChatEntry(newId, persona, now, [])])
  {
    var r := WithSession(h, persona, newId, now);
    if FirstIndex(h, OfPersona(persona)) < 0 {
      assert OfPersona(persona)(r[|h|]);
    }
  }

  /** Loading twice changes the storage no more than loading once. */
  lemma WithSessionIdempotent(h: seq<ChatEntry>, persona: string, newId: string, newId2: string, now: string, now2: string)
    ensures WithSession(WithSession(h, persona, newId, now), persona, newId2, now2) == WithSession(h, persona, newId, now)
  {
    WithSessionSpec(h, persona, newId, now);
  }

  function ClearIf(target: string, now: string): ChatEntry -> ChatEntry
  {
    (e: ChatEntry) => if e.persona == target then e.(messages := [], timestamp := now) else e
  }

  /**
   * `clearConversation`'s storage effect: every entry of the target persona
   * loses its messages; when the target is the current persona its first
   * entry also takes the fresh session id.
   */
  function Cleared(h: seq<ChatEntry>, target: string, isCurrent: bool, newId: string, now: string): seq<ChatEntry>
  {
    var u := Map(h, ClearIf(target, now));
    if isCurrent then
      var i := FirstIndex(u, OfPersona(target));
      if i >= 0 then u[i := u[i].(id := newId)] else u
    else u
  }

  /** The target's entries are emptied, nothing else changes, and only the first target entry can change its id. */
  lemma ClearedSpec(h: seq<ChatEntry>, target: string, isCurrent: bool, newId: string, now: string)
    ensures var r := Cleared(h, target, isCurrent, newId, now);
      && |r| == |h|
      && (forall k | 0 <= k < |h| && h[k].persona != target :: r[k] == h[k])
      && (forall k | 0 <= k < |h| && h[k].persona == target ::
            r[k].persona == target && r[k].messages == [] && r[k].timestamp == now
            && r[k].id == if isCurrent && k == FirstIndex(h, OfPersona(target)) then newId else h[k].id)
  {
    var u := Map(h, ClearIf(target, now));
    assert forall k | 0 <= k < |h| :: u[k].persona == h[k].persona;
    assert FirstIndex(u, OfPersona(target)) == FirstIndex(h, OfPersona(target)) by {
      FirstIndexSamePersona(h, u, target);
    }
  }

  lemma {:induction false} FirstIndexSamePersona(h: seq<ChatEntry>, u: seq<ChatEntry>, target: string)
    requires |h| == |u| && forall k | 0 <= k < |h| :: u[k].persona == h[k].persona
    ensures FirstIndex(u, OfPersona(target)) == FirstIndex(h, OfPersona(target))
  {
    if h != [] {
      FirstIndexSamePersona(h[1..], u[1..], target);
    }
  }

  function ReplaceIf(id: string, stored: seq<StoredMessage>, now: string): ChatEntry -> ChatEntry
  {
    (e: ChatEntry) => if e.id == id then e.(messages := stored, timestamp := now) else e
  }

  /**
   * `saveCurrentConversation`'s storage effect: nothing without an active
   * session; otherwise the entries of that session take the messages, or one
   * new entry is appended when there is none.
   */
  function SavedHistory(h: seq<ChatEntry>, activeId: string, persona: string, messages: seq<Message>, now: string): seq<ChatEntry>
  {
    if activeId == "" then h
    else
      var stored := Map(messages, Stored(now));
      var u := Map(h, ReplaceIf(activeId, stored, now));
      if FirstIndex(u, WithId(activeId)) >= 0 then u else u + [ChatEntry(activeId, persona, now, stored)]
  }

  /** Saving replaces the session's messages in place or appends exactly one entry, and touches nothing else. */
  lemma SavedHistorySpec(h: seq<ChatEntry>, activeId: string, persona: string, messages: seq<Message>, now: string)
    ensures activeId == "" ==> SavedHistory(h, activeId, persona, messages, now) == h
    ensures activeId != "" ==>
      var r := SavedHistory(h, activeId, persona, messages, now);
      var stored := Map(messages, Stored(now));
      && |r| == |h| + (if exists k | 0 <= k < |h| :: h[k].id == activeId then 0 else 1)
      && (forall k | 0 <= k < |h| && h[k].id != activeId :: r[k] == h[k])
      && (forall k | 0 <= k < |h| && h[k].id == activeId ::
            r[k] == h[k].(messages := stored, timestamp := now))
      && ((forall k | 0 <= k < |h| :: h[k].id != activeId) ==>
            r[|h|] == ChatEntry(activeId, persona, now, stored))
  {
    if activeId != "" {
      var stored := Map(messages, Stored(now));
      var u := Map(h, ReplaceIf(activeId, stored, now));
      if exists k | 0 <= k < |h| :: h[k].id == activeId {
        var k :| 0 <= k < |h| && h[k].id == activeId;
        assert WithId(activeId)(u[k]);
      }
    }
  }

  /** After a save the active session's entry holds exactly the saved messages. */
  lemma SavedHistoryHolds(h: seq<ChatEntry>, activeId: string, persona: string, messages: seq<Message>, now: string)
    requires activeId != ""
    ensures var r := SavedHistory(h, activeId, persona, messages, now);
      var i := FirstIndex(r, WithId(activeId));
      i >= 0 && Map(r[i].messages, Restored) == Map(messages, Strip)
  {
    SavedHistorySpec(h, activeId, persona, messages, now);
    StoreRestore(messages, now);
    var r := SavedHistory(h, activeId, persona, messages, now);
    if forall k | 0 <= k < |h| :: h[k].id != activeId {
      assert WithId(activeId)(r[|h|]);
    } else {
      var k :| 0 <= k < |h| && h[k].id == activeId;
      assert WithId(activeId)(r[k]);
    }
  }

  /** The provider's conversation state and the chat-history storage it writes. */
  class ApiSession {
    var history: seq<ChatEntry>
    var conversation: seq<Message>
    var activeSessionId: string
    var currentPersona: string

    /** A provider starting on the default persona over what the storage already holds. */
    constructor(stored: seq<ChatEntry>)
      ensures history == stored && conversation == [] && activeSessionId == "" && currentPersona == "ALTER EGO"
    {
      history := stored;
      conversation := [];
      activeSessionId := "";
      currentPersona := "ALTER EGO";
    }

    /**
     * `loadPersonaHistory`: resume the persona's first stored session, or
     * start a new empty one under `newSessionId`.
     */
    method LoadPersonaHistory(persona: string, newSessionId: string, now: string)
      modifies this`history, this`conversation, this`activeSessionId
      ensures history == WithSession(old(history), persona, newSessionId, now)
      ensures var i := FirstIndex(old(history), OfPersona(persona));
        if i >= 0 then
          activeSessionId == old(history)[i].id
          && conversation == LimitConversationHistory(Map(old(history)[i].messages, Restored), false, 0)
        else activeSessionId == newSessionId && conversation == []
    {
      var i := FirstIndex(history, OfPersona(persona));
      if i >= 0 {
        activeSessionId := history[i].id;
        conversation := LimitConversationHistory(Map(history[i].messages, Restored), false, 0);
      } else {
        activeSessionId := newSessionId;
        conversation := [];
        history := history + [ChatEntry(newSessionId, persona, now, [])];
      }
    }

    /** `saveCurrentConversation`: store `messages` under the active session. */
    method SaveCurrentConversation(messages: seq<Message>, now: string)
      modifies this`history
      ensures history == SavedHistory(old(history), activeSessionId, currentPersona, messages, now)
    {
      if activeSessionId == "" {
        return;
      }
      var stored := Map(messages, Stored(now));
      var updated := Map(history, ReplaceIf(activeSessionId, stored, now));
      if FirstIndex(updated, WithId(activeSessionId)) < 0 {
        updated := updated + [ChatEntry(activeSessionId, currentPersona, now, stored)];
      }
      history := updated;
    }

    /**
     * `clearConversation`: the named persona, or the current one when no
     * name (or an empty one) is given. Clearing the current persona also
     * empties the conversation and starts the session `newSessionId`.
     */
    method ClearConversation(personaName: Option<string>, newSessionId: string, now: string)
      modifies this`history, this`conversation, this`activeSessionId
      ensures var target := if personaName.Some? && personaName.value != "" then personaName.value else currentPersona;
        var isCurrent := target == currentPersona;
        && history == Cleared(old(history), target, isCurrent, newSessionId, now)
        && (isCurrent ==> conversation == [] && activeSessionId == newSessionId)
        && (!isCurrent ==> conversation == old(conversation) && activeSessionId == old(activeSessionId))
    {
      var target := if personaName.Some? && personaName.value != "" then personaName.value else currentPersona;
      if target == currentPersona {
        conversation := [];
      }
      var updated := Map(history, ClearIf(target, now));
      history := updated;
      if target == currentPersona {
        activeSessionId := newSessionId;
        var i := FirstIndex(updated, OfPersona(target));
        if i >= 0 {
          history := updated[i := updated[i].(id := newSessionId)];
        }
      }
    }
  }
}
