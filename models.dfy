/**
 * The bot's stored records: an outbound WhatsApp message whose status the
 * delivery webhooks move along, message templates, on/off switches for
 * notification kinds, and inbound messages awaiting processing. `now` is the
 * time `timezone.now()` returns; saving a row sets its `updated_at` (auto_now).
 */
module Models {
  import opened Wrappers
  import opened PyJson
  import Text

  datatype MessageStatus = Pending | Sent | Delivered | Read | Failed {
    /** The stored choice value. */
    function Value(): string {
      match this
      case Pending => "pending"
      case Sent => "sent"
      case Delivered => "delivered"
      case Read => "read"
      case Failed => "failed"
    }
  }

  /** Python truthiness of an optional string argument (`if whatsapp_message_id:`). */
  predicate Given(s: Option<string>) {
    s.Some? && s.value != ""
  }

  /** A `WhatsAppMessage` row. */
  class WhatsAppMessage {
    const recipientPhone: string
    const messageType: string
    const content: string
    const createdAt: int
    var status: MessageStatus
    var whatsappMessageId: Option<string>
    var errorMessage: Option<string>
    var sentAt: Option<int>
    var deliveredAt: Option<int>
    var readAt: Option<int>
    var updatedAt: int

    /** A new message is pending, with no provider id, no error and no tracking timestamps. */
    constructor(recipientPhone: string, messageType: string, content: string, now: int)
      ensures this.recipientPhone == recipientPhone && this.messageType == messageType && this.content == content
      ensures status == Pending
      ensures whatsappMessageId == None && errorMessage == None
      ensures sentAt == None && deliveredAt == None && readAt == None
      ensures createdAt == now && updatedAt == now
    {
      this.recipientPhone := recipientPhone;
      this.messageType := messageType;
      this.content := content;
      createdAt := now;
      updatedAt := now;
      status := Pending;
      whatsappMessageId := None;
      errorMessage := None;
      sentAt := None;
      deliveredAt := None;
      readAt := None;
    }

    /**
     * `mark_sent`: from any status, including 'read'. The provider id is only
     * replaced when one is given.
     */
    method MarkSent(now: int, messageId: Option<string>)
      modifies this
      ensures status == Sent && sentAt == Some(now) && updatedAt == now
      ensures whatsappMessageId == (if Given(messageId) then messageId else old(whatsappMessageId))
      ensures errorMessage == old(errorMessage) && deliveredAt == old(deliveredAt) && readAt == old(readAt)
    {
      status := Sent;
      sentAt := Some(now);
      if Given(messageId) {
        whatsappMessageId := messageId;
      }
      updatedAt := now;
    }

    /** `mark_delivered`: from any status; only the status and its timestamp change. */
    method MarkDelivered(now: int)
      modifies this
      ensures status == Delivered && deliveredAt == Some(now) && updatedAt == now
      ensures whatsappMessageId == old(whatsappMessageId) && errorMessage == old(errorMessage)
      ensures sentAt == old(sentAt) && readAt == old(readAt)
    {
      status := Delivered;
      deliveredAt := Some(now);
      updatedAt := now;
    }

    /** `mark_read`: from any status; only the status and its timestamp change. */
    method MarkRead(now: int)
      modifies this
      ensures status == Read && readAt == Some(now) && updatedAt == now
      ensures whatsappMessageId == old(whatsappMessageId) && errorMessage == old(errorMessage)
      ensures sentAt == old(sentAt) && deliveredAt == old(deliveredAt)
    {
      status := Read;
      readAt := Some(now);
      updatedAt := now;
    }

    /** `mark_failed`: the error text is only replaced when one is given; no timestamp is set. */
    method MarkFailed(now: int, error: Option<string>)
      modifies this
      ensures status == Failed && updatedAt == now
      ensures errorMessage == (if Given(error) then error else old(errorMessage))
      ensures whatsappMessageId == old(whatsappMessageId)
      ensures sentAt == old(sentAt) && deliveredAt == old(deliveredAt) && readAt == old(readAt)
    {
      status := Failed;
      if Given(error) {
        errorMessage := error;
      }
      updatedAt := now;
    }
  }

  /** A JSON object in its insertion order: the template's `variables` field. */
  type Variables = seq<(string, Json)>

  /** `WhatsAppTemplate.get_available_variables`: the variable names, in order; none for an empty map. */
  function AvailableVariables(variables: Variables): (r: seq<string>)
    ensures |r| == |variables|
    ensures forall i :: 0 <= i < |r| ==> r[i] == variables[i].0
    ensures r == [] <==> variables == []
  {
    if variables == [] then [] else [variables[0].0] + AvailableVariables(variables[1..])
  }

  /** A `WhatsAppConfiguration` row (its `key` is the map key it is stored under). */
  datatype Configuration = Configuration(value: string, isEnabled: bool)

  /**
   * `WhatsAppConfiguration.is_notification_enabled`: on when no row
   * "<type>_enabled" exists, else the row's switch and its value read as 'true'
   * in any letter case.
   */
  function IsNotificationEnabled(configs: map<string, Configuration>, notificationType: string): (r: bool)
    ensures notificationType + "_enabled" !in configs ==> r
    ensures notificationType + "_enabled" in configs ==>
              (r <==> configs[notificationType + "_enabled"].isEnabled &&
                      Text.Lower(configs[notificationType + "_enabled"].value) == "true")
  {
    var key := notificationType + "_enabled";
    if key !in configs then true
    else configs[key].isEnabled && Text.Lower(configs[key].value) == "true"
  }

  /** A switched-off row disables the notification kind whatever its value says. */
  lemma DisabledRowWins(configs: map<string, Configuration>, notificationType: string, value: string)
    ensures !IsNotificationEnabled(configs[notificationType + "_enabled" := Configuration(value, false)],
                                   notificationType)
  {
  }

  /** "TRUE", "True" and "true" all switch a kind on. */
  lemma TrueInAnyCase(configs: map<string, Configuration>, notificationType: string)
    ensures IsNotificationEnabled(configs[notificationType + "_enabled" := Configuration("TRUE", true)],
                                  notificationType)
    ensures IsNotificationEnabled(configs[notificationType + "_enabled" := Configuration("True", true)],
                                  notificationType)
  {
    assert Text.Lower("TRUE") == "true";
    assert Text.Lower("True") == "true";
  }

  /** A `WhatsAppInboundMessage` row. */
  class WhatsAppInboundMessage {
    const senderPhone: string
    const messageContent: string
    const whatsappMessageId: string
    var isProcessed: bool
    var responseSent: bool
    var processedAt: Option<int>

    constructor(senderPhone: string, messageContent: string, whatsappMessageId: string)
      ensures this.senderPhone == senderPhone && this.messageContent == messageContent
      ensures this.whatsappMessageId == whatsappMessageId
      ensures !isProcessed && !responseSent && processedAt == None
    {
      this.senderPhone := senderPhone;
      this.messageContent := messageContent;
      this.whatsappMessageId := whatsappMessageId;
      isProcessed := false;
      responseSent := false;
      processedAt := None;
    }

    /** `mark_processed` */
    method MarkProcessed(now: int)
      modifies this
      ensures isProcessed && processedAt == Some(now)
      ensures responseSent == old(responseSent)
    {
      isProcessed := true;
      processedAt := Some(now);
    }
  }
}
