/**
 * The WhatsApp Business API provider: reading a webhook delivery into an
 * `IMMessage`, building the Graph API request for an `IMResponse`, checking the
 * `X-Hub-Signature-256` header, and answering the subscription handshake.
 * HMAC-SHA256 (RFC 2104 with SHA-256 of FIPS 180-4), as a lower-case hex digest,
 * is the parameter `hmacHex(key, message)`; the HTTP call itself is the outcome
 * flag `delivered`.
 */
module WhatsApp {
  import opened Wrappers
  import opened PyJson
  import opened IMBase
  import Text

  const PLATFORM_NAME: string := "whatsapp"
  const DEFAULT_API_VERSION: string := "v23.0"

  // ---------------------------------------------------------------------------
  // Parsing a webhook delivery

  /** How `parse_incoming_message` ends. */
  datatype ParseOutcome =
    | Parsed(message: IMMessage)
    | NoMessage                      // `messages` is empty or missing: None
    | Malformed(error: PyError)      // KeyError, IndexError or TypeError, caught: None
    | Escapes(error: PyError)        // AttributeError, not caught: the call raises
    | NotText                        // a sender, timestamp or content that is not a str: the source's
                                     // IMMessage would carry it, this model's message cannot
  {
    /** What the caller receives when the call returns. */
    function Returned(): Option<IMMessage> {
      if Parsed? then Some(message) else None
    }
  }

  /** An exception raised while parsing: the three caught kinds give None, the rest propagate. */
  function Raised(e: PyError): (r: ParseOutcome)
    ensures r.Escapes? <==> e == AttributeError
    ensures !r.Escapes? ==> r == Malformed(e)
  {
    if e == AttributeError then Escapes(e) else Malformed(e)
  }

  /** `d.get(k, default)[0]` */
  function GetFirst(d: Json, k: string): (r: Py<Json>)
    ensures d.JObj? && k in d.fields && d.fields[k].JArr? && d.fields[k].items != [] ==>
            r == Ok(d.fields[k].items[0])
    ensures d.JObj? && k !in d.fields ==> r == Err(IndexError)
    ensures !d.JObj? ==> r == Err(AttributeError)
  {
    match Get(d, k, JArr([]))
    case Err(e) => Err(e)
    case Ok(v) => First(v)
  }

  /** `raw_data.get('entry', [])[0].get('changes', [])[0].get('value', {})` */
  function ChangeValue(raw: Json): (r: Py<Json>)
    ensures r.Ok? ==> raw.JObj? && "entry" in raw.fields
  {
    match GetFirst(raw, "entry")
    case Err(e) => Err(e)
    case Ok(entry) =>
      match GetFirst(entry, "changes")
      case Err(e) => Err(e)
      case Ok(change) => Get(change, "value", JObj(map[]))
  }

  /** Type, content and the extra metadata of one message, by the fixed precedence of its keys. */
  datatype Body = Body(messageType: MessageType, content: Json, extra: Metadata)

  /** `m.get(k, '')` on the value under a media key. */
  function Caption(media: Json): Py<Json> {
    Get(media, "caption", JStr(""))
  }

  function MediaBody(t: MessageType, media: Json): Py<Body> {
    match Caption(media)
    case Err(e) => Err(e)
    case Ok(caption) =>
      match Subscript(media, "id")
      case Err(e) => Err(e)
      case Ok(id) => Ok(Body(t, caption, map["media_id" := id]))
  }

  function DocumentBody(doc: Json): Py<Body> {
    match MediaBody(DOCUMENT, doc)
    case Err(e) => Err(e)
    case Ok(b) =>
      match Get(doc, "filename", JStr(""))
      case Err(e) => Err(e)
      case Ok(name) => Ok(b.(extra := b.extra["filename" := name]))
  }

  function LocationBody(loc: Json): Py<Body> {
    match Get(loc, "latitude", JNull)
    case Err(e) => Err(e)
    case Ok(lat) =>
      match Get(loc, "longitude", JNull)
      case Err(e) => Err(e)
      case Ok(lon) =>
        Ok(Body(LOCATION, JStr("Latitude: " + Show(lat) + ", Longitude: " + Show(lon)),
                map["latitude" := lat, "longitude" := lon]))
  }

  /** The `if 'text' in message ... elif 'location' in message` chain. */
  function BodyOf(m: map<string, Json>): (r: Py<Body>)
    ensures "text" in m ==> r == (match Subscript(m["text"], "body")
                                  case Ok(v) => Ok(Body(TEXT, v, map[]))
                                  case Err(e) => Err(e))
    ensures "text" !in m && "image" in m ==> r == MediaBody(IMAGE, m["image"])
    ensures "text" !in m && "image" !in m && "document" in m ==> r == DocumentBody(m["document"])
    ensures r.Ok? ==> (r.value.messageType == TEXT <==> "text" in m || !HasKindKey(m))
    ensures !HasKindKey(m) ==> r == Ok(Body(TEXT, JStr(""), map[]))
  {
    if "text" in m then
      match Subscript(m["text"], "body")
      case Ok(v) => Ok(Body(TEXT, v, map[]))
      case Err(e) => Err(e)
    else if "image" in m then MediaBody(IMAGE, m["image"])
    else if "document" in m then DocumentBody(m["document"])
    else if "audio" in m then
      match Subscript(m["audio"], "id")
      case Err(e) => Err(e)
      case Ok(id) => Ok(Body(AUDIO, JStr(""), map["media_id" := id]))
    else if "video" in m then MediaBody(VIDEO, m["video"])
    else if "location" in m then LocationBody(m["location"])
    else Ok(Body(TEXT, JStr(""), map[]))
  }

  predicate HasKindKey(m: map<string, Json>) {
    "text" in m || "image" in m || "document" in m || "audio" in m || "video" in m || "location" in m
  }

  /** The type the chain picks: the first of text, image, document, audio, video, location present. */
  function KindOf(m: map<string, Json>): MessageType {
    if "text" in m then TEXT
    else if "image" in m then IMAGE
    else if "document" in m then DOCUMENT
    else if "audio" in m then AUDIO
    else if "video" in m then VIDEO
    else if "location" in m then LOCATION
    else TEXT
  }

  /** The metadata every parsed message carries. */
  function BaseMetadata(m: map<string, Json>): Metadata {
    map["message_id" := GetKey(m, "id"), "timestamp" := GetKey(m, "timestamp"), "raw_data" := JObj(m)]
  }

  /** `m.get(k)` */
  function GetKey(m: map<string, Json>, k: string): Json {
    if k in m then m[k] else JNull
  }

  /**
   * `parse_incoming_message`: a message of this platform, or one of the ways it
   * gives up: no messages, a caught KeyError, IndexError or TypeError, or an
   * AttributeError that escapes.
   */
  function Parse(raw: Json, platform: string): (r: ParseOutcome)
    ensures ChangeValue(raw).Err? ==> r == Raised(ChangeValue(raw).error)
    ensures r.Malformed? ==> r.error in {KeyError, IndexError, TypeError}
    ensures r.Escapes? ==> r.error == AttributeError
    ensures r.Parsed? ==> r.message.platform == platform && r.message.metadata.Keys >= {"message_id", "timestamp", "raw_data"}
  {
    match ChangeValue(raw)
    case Err(e) => Raised(e)
    case Ok(value) =>
      match Get(value, "messages", JArr([]))
      case Err(e) => Raised(e)
      case Ok(messages) =>
        if !Truthy(messages) then NoMessage
        else
          match First(messages)
          case Err(e) => Raised(e)
          case Ok(message) =>
            if !message.JObj? then Raised(AttributeError)
            else
              var m := message.fields;
              match BodyOf(m)
              case Err(e) => Raised(e)
              case Ok(body) =>
                var sender, timestamp := GetKey(m, "from"), GetKey(m, "timestamp");
                if !sender.JStr? || !timestamp.JStr? || !body.content.JStr? then NotText
                else Parsed(IMMessage(sender.s, body.messageType, body.content.s, platform, timestamp.s,
                                      BaseMetadata(m) + body.extra))
  }

  /** A well-formed delivery: one text message from `from`, in the first change of the first entry. */
  function TextDelivery(from: string, id: string, timestamp: string, body: string): Json {
    var message := JObj(map["from" := JStr(from), "id" := JStr(id), "timestamp" := JStr(timestamp),
                            "type" := JStr("text"), "text" := JObj(map["body" := JStr(body)])]);
    JObj(map["entry" := JArr([JObj(map["changes" := JArr([JObj(map["value" := JObj(map["messages" := JArr([message])])])])])])])
  }

  /** A text message is read back as a TEXT message from its sender, with its body as content. */
  lemma ParseTextDelivery(from: string, id: string, timestamp: string, body: string)
    ensures var r := Parse(TextDelivery(from, id, timestamp, body), PLATFORM_NAME);
            r.Parsed? && r.message.senderId == from && r.message.messageType == TEXT &&
            r.message.content == body && r.message.timestamp == timestamp &&
            r.message.platform == PLATFORM_NAME && r.message.metadata["message_id"] == JStr(id)
  {
    var raw := TextDelivery(from, id, timestamp, body);
    var value := JObj(map["messages" := raw.fields["entry"].items[0].fields["changes"].items[0].fields["value"].fields["messages"]]);
    assert ChangeValue(raw) == Ok(value);
  }

  /** Only the first message of the first change of the first entry is read; an empty list gives None. */
  lemma NoMessagesGivesNone(raw: Json, value: Json)
    requires ChangeValue(raw) == Ok(value)
    requires value.JObj? && ("messages" !in value.fields || !Truthy(value.fields["messages"]))
    ensures Parse(raw, PLATFORM_NAME) == NoMessage
  {
  }

  /** An empty or missing `entry` list makes the parse return None (IndexError), it does not raise. */
  lemma EmptyEntryGivesNone(raw: Json)
    requires raw.JObj? && ("entry" !in raw.fields || raw.fields["entry"] == JArr([]))
    ensures Parse(raw, PLATFORM_NAME) == Malformed(IndexError)
    ensures Parse(raw, PLATFORM_NAME).Returned() == None
  {
  }

  /** Every parsed message has the platform's name, the message id, timestamp and raw message. */
  lemma ParsedMetadata(raw: Json, platform: string)
    requires Parse(raw, platform).Parsed?
    ensures var msg := Parse(raw, platform).message;
            msg.platform == platform &&
            "message_id" in msg.metadata && "timestamp" in msg.metadata && "raw_data" in msg.metadata &&
            msg.metadata["raw_data"].JObj? &&
            msg.messageType == KindOf(msg.metadata["raw_data"].fields)
  {
    var value :| ChangeValue(raw) == Ok(value);
    var messages :| Get(value, "messages", JArr([])) == Ok(messages);
    var message :| First(messages) == Ok(message);
    var m := message.fields;
    var body :| BodyOf(m) == Ok(body);
    assert body.messageType == KindOf(m) by { BodyKind(m); }
    assert body.extra.Keys !! {"raw_data"} by { BodyExtraKeys(m); }
  }

  /** The chain's type is the precedence order's type. */
  lemma BodyKind(m: map<string, Json>)
    requires BodyOf(m).Ok?
    ensures BodyOf(m).value.messageType == KindOf(m)
  {
  }

  /** Media messages add `media_id`, documents also `filename`, locations `latitude` and `longitude`. */
  lemma BodyExtraKeys(m: map<string, Json>)
    requires BodyOf(m).Ok?
    ensures var b := BodyOf(m).value;
            (b.messageType in {IMAGE, AUDIO, VIDEO} ==> b.extra.Keys == {"media_id"}) &&
            (b.messageType == DOCUMENT ==> b.extra.Keys == {"media_id", "filename"}) &&
            (b.messageType == LOCATION ==> b.extra.Keys == {"latitude", "longitude"}) &&
            (b.messageType == TEXT ==> b.extra == map[])
  {
  }

  /** Copying the known extra keys one by one onto the base metadata gives the merged dict. */
  lemma FillMetadata(base: Metadata, extra: Metadata)
    requires extra.Keys <= {"media_id", "filename", "latitude", "longitude"}
    ensures var m1 := if "media_id" in extra then base["media_id" := extra["media_id"]] else base;
            var m2 := if "filename" in extra then m1["filename" := extra["filename"]] else m1;
            var m3 := if "latitude" in extra then m2["latitude" := extra["latitude"]] else m2;
            var m4 := if "longitude" in extra then m3["longitude" := extra["longitude"]] else m3;
            m4 == base + extra
  {
  }

  /** A message without any of the known keys is TEXT with empty content. */
  lemma NoKindKeyIsEmptyText(m: map<string, Json>)
    requires !HasKindKey(m)
    ensures BodyOf(m) == Ok(Body(TEXT, JStr(""), map[]))
  {
  }

  // ---------------------------------------------------------------------------
  // Sending

  /** The request `send_message` hands to `requests.post`. */
  datatype Request = Request(url: string, headers: map<string, string>, payload: Json)

  /** `f"{x}"` for an optional string setting. */
  function OptText(o: Option<string>): string {
    if o.Some? then o.value else "None"
  }

  /** The JSON body of the Graph API call for `response`. */
  function Payload(response: IMResponse): (p: map<string, Json>)
    ensures "messaging_product" in p && p["messaging_product"] == JStr("whatsapp")
    ensures "to" in p && p["to"] == JStr(response.recipientId)
    ensures "buttons" in response.metadata ==>
            "type" in p && p["type"] == JStr("interactive") && "interactive" in p &&
            p["interactive"] == JObj(map["type" := JStr("button"), "body" := JObj(map["text" := JStr(response.content)]),
                                         "action" := JObj(map["buttons" := response.metadata["buttons"]])])
    ensures "buttons" !in response.metadata && response.messageType == TEXT ==>
            "type" in p && p["type"] == JStr("text") && "text" in p && p["text"] == JObj(map["body" := JStr(response.content)])
    ensures "buttons" !in response.metadata && response.messageType in {IMAGE, DOCUMENT} ==>
            "type" in p && p["type"] == JStr(response.messageType.Value())
    ensures response.messageType == IMAGE ==>
            "image" in p &&
            p["image"] == JObj(map["link" := GetKey(response.metadata, "image_url"), "caption" := JStr(response.content)])
    ensures response.messageType == DOCUMENT && "filename" in response.metadata ==>
            "document" in p &&
            p["document"] == JObj(map["link" := GetKey(response.metadata, "document_url"),
                                      "caption" := JStr(response.content), "filename" := response.metadata["filename"]])
    ensures response.messageType == DOCUMENT && "filename" !in response.metadata ==>
            "document" in p &&
            p["document"] == JObj(map["link" := GetKey(response.metadata, "document_url"),
                                      "caption" := JStr(response.content), "filename" := JStr("document")])
    ensures p.Keys <= {"messaging_product", "to", "type", "text", "image", "document", "interactive"}
    ensures "buttons" !in response.metadata && response.messageType in {AUDIO, VIDEO, LOCATION} ==>
            "type" !in p
  {
    var base := map["messaging_product" := JStr("whatsapp"), "to" := JStr(response.recipientId)];
    var typed :=
      match response.messageType
      case TEXT => base["type" := JStr("text")]["text" := JObj(map["body" := JStr(response.content)])]
      case IMAGE =>
        base["type" := JStr("image")]["image" := JObj(map[
          "link" := GetKey(response.metadata, "image_url"), "caption" := JStr(response.content)])]
      case DOCUMENT =>
        base["type" := JStr("document")]["document" := JObj(map[
          "link" := GetKey(response.metadata, "document_url"), "caption" := JStr(response.content),
          "filename" := if "filename" in response.metadata then response.metadata["filename"] else JStr("document")])]
      case _ => base;
    if "buttons" in response.metadata then
      typed["type" := JStr("interactive")]["interactive" := JObj(map[
        "type" := JStr("button"), "body" := JObj(map["text" := JStr(response.content)]),
        "action" := JObj(map["buttons" := response.metadata["buttons"]])])]
    else typed
  }

  /** The buttons key replaces the type whatever it was, and keeps the type-specific part. */
  lemma ButtonsOverrideType(response: IMResponse)
    requires "buttons" in response.metadata && response.messageType == TEXT
    ensures var p := Payload(response);
            "type" in p && p["type"] == JStr("interactive") &&
            "text" in p && p["text"] == JObj(map["body" := JStr(response.content)])
  {
  }

  // ---------------------------------------------------------------------------
  // Webhook security

  /** `signature[7:]` when it starts with "sha256=". */
  function StripScheme(signature: string): (r: string)
    ensures Text.StartsWith(signature, "sha256=") ==> signature == "sha256=" + r
    ensures !Text.StartsWith(signature, "sha256=") ==> r == signature
  {
    if Text.StartsWith(signature, "sha256=") then signature[7..] else signature
  }

  /**
   * `validate_webhook_signature`: without an app secret every delivery is accepted; a
   * missing header (`None.startswith`) is rejected; otherwise the digest must match.
   */
  function SignatureValid(appSecret: Option<string>, payload: string, signature: Option<string>,
                          hmacHex: (string, string) -> string): (r: bool)
    ensures appSecret.None? || appSecret.value == "" ==> r
    ensures appSecret.Some? && appSecret.value != "" ==>
            (r <==> signature.Some? && StripScheme(signature.value) == hmacHex(appSecret.value, payload))
  {
    if appSecret.None? || appSecret.value == "" then true
    else signature.Some? && StripScheme(signature.value) == hmacHex(appSecret.value, payload)
  }

  /** The digest is accepted with or without its "sha256=" scheme. */
  lemma SignatureSchemeOptional(secret: string, payload: string, hmacHex: (string, string) -> string)
    requires secret != "" && !Text.StartsWith(hmacHex(secret, payload), "sha256=")
    ensures SignatureValid(Some(secret), payload, Some(hmacHex(secret, payload)), hmacHex)
    ensures SignatureValid(Some(secret), payload, Some("sha256=" + hmacHex(secret, payload)), hmacHex)
  {
    var h := hmacHex(secret, payload);
    assert ("sha256=" + h)[..7] == "sha256=";
    assert ("sha256=" + h)[7..] == h;
  }

  /** With a secret configured, a header that differs from the digest (after the scheme) is refused. */
  lemma WrongSignatureRejected(secret: string, payload: string, signature: string, hmacHex: (string, string) -> string)
    requires secret != "" && StripScheme(signature) != hmacHex(secret, payload)
    ensures !SignatureValid(Some(secret), payload, Some(signature), hmacHex)
  {
  }

  /** `verify_webhook`: the challenge, exactly for a subscribe request carrying the configured token. */
  function VerifyWebhook(verifyToken: Option<string>, mode: Option<string>, token: Option<string>,
                         challenge: string): (r: Option<string>)
    ensures r.Some? <==> mode == Some("subscribe") && token == verifyToken
    ensures r.Some? ==> r.value == challenge
  {
    if mode == Some("subscribe") && token == verifyToken then Some(challenge) else None
  }

  /** With no token configured, a subscribe request that omits the token is accepted. */
  lemma UnconfiguredTokenAcceptsMissingToken(challenge: string)
    ensures VerifyWebhook(None, Some("subscribe"), None, challenge) == Some(challenge)
  {
  }

  // ---------------------------------------------------------------------------
  // The provider object

  /** The Django settings the provider falls back on. */
  datatype ProviderSettings = ProviderSettings(
    accessToken: Option<string>,
    phoneNumberId: Option<string>,
    webhookVerifyToken: Option<string>,
    appSecret: Option<string>)

  /** `config.get(key) or fallback` */
  function ConfigOr(config: map<string, string>, key: string, fallback: Option<string>): (r: Option<string>)
    ensures key in config && config[key] != "" ==> r == Some(config[key])
    ensures !(key in config && config[key] != "") ==> r == fallback
  {
    if key in config && config[key] != "" then Some(config[key]) else fallback
  }

  class WhatsAppProvider {
    const config: map<string, string>
    const platformName: string
    const accessToken: Option<string>
    const phoneNumberId: Option<string>
    const webhookVerifyToken: Option<string>
    const appSecret: Option<string>
    const apiVersion: string
    const baseUrl: string

    /** `BaseIMProvider.__init__` (the platform name comes from `get_platform_name`) and the provider's own. */
    constructor(config: map<string, string>, settings: ProviderSettings)
      ensures this.config == config && platformName == PLATFORM_NAME
      ensures accessToken == ConfigOr(config, "access_token", settings.accessToken)
      ensures phoneNumberId == ConfigOr(config, "phone_number_id", settings.phoneNumberId)
      ensures webhookVerifyToken == ConfigOr(config, "webhook_verify_token", settings.webhookVerifyToken)
      ensures appSecret == ConfigOr(config, "app_secret", settings.appSecret)
      ensures apiVersion == if "api_version" in config then config["api_version"] else DEFAULT_API_VERSION
      ensures baseUrl == "https://graph.facebook.com/" + apiVersion
    {
      this.config := config;
      platformName := PLATFORM_NAME;
      accessToken := ConfigOr(config, "access_token", settings.accessToken);
      phoneNumberId := ConfigOr(config, "phone_number_id", settings.phoneNumberId);
      webhookVerifyToken := ConfigOr(config, "webhook_verify_token", settings.webhookVerifyToken);
      appSecret := ConfigOr(config, "app_secret", settings.appSecret);
      var version := if "api_version" in config then config["api_version"] else DEFAULT_API_VERSION;
      apiVersion := version;
      baseUrl := "https://graph.facebook.com/" + version;
    }

    /** `parse_incoming_message`, filling the metadata dict key by key. */
    method ParseIncomingMessage(raw: Json) returns (r: ParseOutcome)
      ensures r == Parse(raw, platformName)
    {
      var value := ChangeValue(raw);
      if value.Err? { return Raised(value.error); }
      var messages := Get(value.value, "messages", JArr([]));
      if messages.Err? { return Raised(messages.error); }
      if !Truthy(messages.value) { return NoMessage; }
      var first := First(messages.value);
      if first.Err? { return Raised(first.error); }
      if !first.value.JObj? { return Raised(AttributeError); }
      var m := first.value.fields;
      var sender, timestamp := GetKey(m, "from"), GetKey(m, "timestamp");
      var metadata: Metadata := map["message_id" := GetKey(m, "id"), "timestamp" := timestamp, "raw_data" := first.value];
      var body := BodyOf(m);
      if body.Err? { return Raised(body.error); }
      var extra := body.value.extra;
      if "media_id" in extra { metadata := metadata["media_id" := extra["media_id"]]; }
      if "filename" in extra { metadata := metadata["filename" := extra["filename"]]; }
      if "latitude" in extra { metadata := metadata["latitude" := extra["latitude"]]; }
      if "longitude" in extra { metadata := metadata["longitude" := extra["longitude"]]; }
      assert extra.Keys <= {"media_id", "filename", "latitude", "longitude"} by { BodyExtraKeys(m); }
      FillMetadata(BaseMetadata(m), extra);
      if !sender.JStr? || !timestamp.JStr? || !body.value.content.JStr? { return NotText; }
      r := Parsed(IMMessage(sender.s, body.value.messageType, body.value.content.s, platformName,
                            timestamp.s, metadata));
    }

    /** `send_message`: the request it posts, and True exactly when the API accepted it. */
    method SendMessage(response: IMResponse, delivered: bool) returns (ok: bool, request: Request)
      ensures ok == delivered
      ensures request.url == baseUrl + "/" + OptText(phoneNumberId) + "/messages"
      ensures request.headers == map["Authorization" := "Bearer " + OptText(accessToken),
                                     "Content-Type" := "application/json"]
      ensures request.payload == JObj(Payload(response))
    {
      var payload := map["messaging_product" := JStr("whatsapp"), "to" := JStr(response.recipientId)];
      if response.messageType == TEXT {
        payload := payload["type" := JStr("text")];
        payload := payload["text" := JObj(map["body" := JStr(response.content)])];
      } else if response.messageType == IMAGE {
        payload := payload["type" := JStr("image")];
        payload := payload["image" := JObj(map["link" := GetKey(response.metadata, "image_url"),
                                                "caption" := JStr(response.content)])];
      } else if response.messageType == DOCUMENT {
        payload := payload["type" := JStr("document")];
        var filename := if "filename" in response.metadata then response.metadata["filename"] else JStr("document");
        payload := payload["document" := JObj(map["link" := GetKey(response.metadata, "document_url"),
                                                   "caption" := JStr(response.content), "filename" := filename])];
      }
      if "buttons" in response.metadata {
        payload := payload["type" := JStr("interactive")];
        payload := payload["interactive" := JObj(map[
          "type" := JStr("button"), "body" := JObj(map["text" := JStr(response.content)]),
          "action" := JObj(map["buttons" := response.metadata["buttons"]])])];
      }
      request := Request(baseUrl + "/" + OptText(phoneNumberId) + "/messages",
                         map["Authorization" := "Bearer " + OptText(accessToken), "Content-Type" := "application/json"],
                         JObj(payload));
      ok := delivered;
    }

    /** `validate_webhook_signature` */
    method ValidateWebhookSignature(payload: string, signature: Option<string>, hmacHex: (string, string) -> string)
      returns (valid: bool)
      ensures valid == SignatureValid(appSecret, payload, signature, hmacHex)
    {
      if appSecret.None? || appSecret.value == "" {
        return true;
      }
      if signature.None? {
        return false;
      }
      var sig := signature.value;
      if Text.StartsWith(sig, "sha256=") {
        sig := sig[7..];
      }
      var expected := hmacHex(appSecret.value, payload);
      valid := expected == sig;
    }

    /**
     * `get_user_profile`: the Graph API lookup for `userId`; `fetched` is the decoded
     * reply, None when the request failed, and a failure gives `{}`.
     */
    method GetUserProfile(userId: string, fetched: Option<Metadata>) returns (profile: Metadata, request: Request)
      ensures request == Request(baseUrl + "/" + userId, map["Authorization" := "Bearer " + OptText(accessToken)], JNull)
      ensures fetched.None? ==> profile == DefaultGetUserProfile(userId)
      ensures fetched.Some? ==> profile == fetched.value
    {
      request := Request(baseUrl + "/" + userId, map["Authorization" := "Bearer " + OptText(accessToken)], JNull);
      if fetched.Some? {
        profile := fetched.value;
      } else {
        profile := map[];
      }
    }

    /** `verify_webhook` */
    method VerifyWebhookRequest(mode: Option<string>, token: Option<string>, challenge: string)
      returns (r: Option<string>)
      ensures r == VerifyWebhook(webhookVerifyToken, mode, token, challenge)
    {
      if mode == Some("subscribe") && token == webhookVerifyToken {
        return Some(challenge);
      }
      return None;
    }
  }
}
