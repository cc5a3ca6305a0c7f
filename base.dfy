/**
 * The platform-independent message types shared by every instant-messaging
 * provider: the incoming message, the outgoing response, and the defaults of
 * the abstract provider.
 */
module IMBase {
  import opened Wrappers
  import opened PyJson

  datatype MessageType = TEXT | IMAGE | DOCUMENT | AUDIO | VIDEO | LOCATION
  {
    /** The enum member's `.value`. */
    function Value(): string {
      match this
      case TEXT => "text"
      case IMAGE => "image"
      case DOCUMENT => "document"
      case AUDIO => "audio"
      case VIDEO => "video"
      case LOCATION => "location"
    }
  }

  /** `MessageType(value)`: the member with that value, None where Python raises ValueError. */
  function MessageTypeOf(value: string): (r: Option<MessageType>)
    ensures r.Some? ==> r.value.Value() == value
    ensures forall t: MessageType :: t.Value() == value ==> r == Some(t)
  {
    if value == "text" then Some(TEXT)
    else if value == "image" then Some(IMAGE)
    else if value == "document" then Some(DOCUMENT)
    else if value == "audio" then Some(AUDIO)
    else if value == "video" then Some(VIDEO)
    else if value == "location" then Some(LOCATION)
    else None
  }

  /** Looking a member up by its own value gives the member back. */
  lemma MessageTypeRoundTrip(t: MessageType)
    ensures MessageTypeOf(t.Value()) == Some(t)
  {
  }

  type Metadata = map<string, Json>

  datatype IMMessage = IMMessage(
    senderId: string,
    messageType: MessageType,
    content: string,
    platform: string,
    timestamp: string,
    metadata: Metadata)

  datatype IMResponse = IMResponse(
    recipientId: string,
    messageType: MessageType,
    content: string,
    metadata: Metadata)

  /** The dataclass constructor plus `__post_init__`: metadata None becomes `{}`. */
  function NewIMMessage(senderId: string, messageType: MessageType, content: string, platform: string,
                        timestamp: string, metadata: Option<Metadata>): (m: IMMessage)
    ensures m.senderId == senderId && m.messageType == messageType && m.content == content
    ensures m.platform == platform && m.timestamp == timestamp
    ensures metadata.None? ==> m.metadata == map[]
    ensures metadata.Some? ==> m.metadata == metadata.value
  {
    IMMessage(senderId, messageType, content, platform, timestamp, metadata.GetOr(map[]))
  }

  /** The dataclass constructor plus `__post_init__`: metadata None becomes `{}`. */
  function NewIMResponse(recipientId: string, messageType: MessageType, content: string,
                         metadata: Option<Metadata>): (r: IMResponse)
    ensures r.recipientId == recipientId && r.messageType == messageType && r.content == content
    ensures metadata.None? ==> r.metadata == map[]
    ensures metadata.Some? ==> r.metadata == metadata.value
  {
    IMResponse(recipientId, messageType, content, metadata.GetOr(map[]))
  }

  /** `IMResponse(recipient, MessageType.TEXT, content)`, the form every handler replies with. */
  function TextTo(recipientId: string, content: string): (r: IMResponse)
    ensures r.recipientId == recipientId && r.messageType == TEXT && r.content == content
    ensures r.metadata == map[]
  {
    NewIMResponse(recipientId, TEXT, content, None)
  }

  /** A handler's reply: exactly one TEXT response, addressed to `recipient`. */
  predicate SingleTextReply(r: seq<IMResponse>, recipient: string) {
    |r| == 1 && r[0].recipientId == recipient && r[0].messageType == TEXT && r[0].metadata == map[]
  }

  /** `BaseIMProvider.validate_webhook_signature`: a provider without its own check accepts everything. */
  function DefaultValidateWebhookSignature(payload: string, signature: string): (r: bool)
    ensures r
  {
    true
  }

  /** `BaseIMProvider.get_user_profile`: no profile information. */
  function DefaultGetUserProfile(userId: string): (r: Metadata)
    ensures r == map[]
  {
    map[]
  }
}
