/**
 * The conversions of `src/types/legacy.ts` between the old stored message form (a text
 * with a user flag) and the current message form (a role and a content). Dates are
 * milliseconds since the epoch; an ISO timestamp string is represented by the instant it
 * names.
 */
module Legacy {
  import opened Wrappers

  datatype Role = User | Assistant | System

  /** A message of the old schema. */
  datatype LegacyMessage = LegacyMessage(id: Option<int>, text: string, isUser: bool, timestamp: int)

  /** A message of `src/types/message.ts`; empty image lists stand for absent ones. */
  datatype Message = Message(
    role: Role, content: string, timestamp: Option<int>, id: Option<int>,
    images: seq<string>, imageIds: seq<string>)

  /** `legacyToMessage`. */
  function LegacyToMessage(legacy: LegacyMessage): (m: Message)
    ensures m.role == User <==> legacy.isUser
    ensures m.role != System
    ensures m.content == legacy.text && m.id == legacy.id && m.timestamp == Some(legacy.timestamp)
    ensures m.images == [] && m.imageIds == []
  {
    Message(if legacy.isUser then User else Assistant, legacy.text, Some(legacy.timestamp), legacy.id, [], [])
  }

  /** `messageToLegacy`; a message without a timestamp is dated `now`. */
  function MessageToLegacy(message: Message, now: int): (l: LegacyMessage)
    ensures l.isUser <==> message.role == User
    ensures l.text == message.content && l.id == message.id
    ensures l.timestamp == if message.timestamp.Some? then message.timestamp.value else now
  {
    LegacyMessage(
      message.id, message.content, message.role == User,
      if message.timestamp.Some? then message.timestamp.value else now)
  }

  /** Old to new and back gives the same old message. */
  lemma LegacyRoundTrip(legacy: LegacyMessage, now: int)
    ensures MessageToLegacy(LegacyToMessage(legacy), now) == legacy
  {
  }

  /**
   * New to old and back keeps the id, the content and a user or assistant role; a system
   * message comes back as an assistant message, and the images are lost.
   */
  lemma MessageRoundTrip(message: Message, now: int)
    ensures var m := LegacyToMessage(MessageToLegacy(message, now));
      && m.id == message.id && m.content == message.content
      && m.role == (if message.role == System then Assistant else message.role)
      && m.timestamp == Some(if message.timestamp.Some? then message.timestamp.value else now)
      && m.images == [] && m.imageIds == []
  {
  }

  /** The round trip is exact precisely for dated user and assistant messages without images. */
  lemma MessageRoundTripExact(message: Message, now: int)
    ensures LegacyToMessage(MessageToLegacy(message, now)) == message <==>
      message.role != System && message.timestamp.Some? && message.images == [] && message.imageIds == []
  {
  }
}
