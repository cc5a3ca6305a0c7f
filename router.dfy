/**
 * The keyword router: a three-way choice on the stripped, lower-cased text, after
 * which exactly one TEXT reply is handed to the WhatsApp provider.
 */
module Router {
  import opened Wrappers
  import opened IMBase
  import opened PyJson
  import Text
  import WhatsApp

  const MENU_REPLY: string := "Welcome to CARE!\n1. View Appointments\n2. About Care\nReply with the option."
  const APPOINTMENTS_REPLY: string := "You have no upcoming appointments."
  const ABOUT_REPLY: string := "CARE is your digital healthcare companion. Visit https://ohc.network for more."

  /** `text.strip().lower()`: no longer than the text, and with nothing left to strip. */
  function Normalize(text: string): (r: string)
    ensures Text.Strip(r) == r
    ensures |r| <= |text|
  {
    var r := Text.Lower(Text.Strip(text));
    Text.StripLower(Text.Strip(text));
    Text.StripIdempotent(text);
    r
  }

  /** Normalising a normalised text changes nothing. */
  lemma NormalizeIdempotent(text: string)
    ensures Normalize(Normalize(text)) == Normalize(text)
  {
    var t := Normalize(text);
    Text.LowerIdempotent(Text.Strip(text));
    assert Text.Lower(t) == t;
  }

  /** The reply for an already normalised text. */
  function ReplyFor(t: string): (r: string)
    ensures r == APPOINTMENTS_REPLY <==> t in ["view appointments", "appointments"]
    ensures r == ABOUT_REPLY <==> t in ["about care", "about"]
    ensures r == MENU_REPLY <==> t !in ["view appointments", "appointments", "about care", "about"]
  {
    if t in ["view appointments", "appointments"] then APPOINTMENTS_REPLY
    else if t in ["about care", "about"] then ABOUT_REPLY
    else MENU_REPLY
  }

  /** The reply `route` sends for `text`: one of the three, chosen by the normalised text. */
  function SelectReply(text: string): (r: string)
    ensures r == APPOINTMENTS_REPLY <==> Normalize(text) in ["view appointments", "appointments"]
    ensures r == ABOUT_REPLY <==> Normalize(text) in ["about care", "about"]
    ensures r == MENU_REPLY <==> Normalize(text) !in ["view appointments", "appointments", "about care", "about"]
  {
    var t := Normalize(text);
    ReplyFor(t)
  }

  /** Surrounding whitespace and letter case do not change the choice. */
  lemma SelectIgnoresPaddingAndCase(pre: string, text: string, post: string)
    requires Text.AllSpace(pre) && Text.AllSpace(post)
    ensures SelectReply(pre + text + post) == SelectReply(text)
    ensures SelectReply(Text.Lower(text)) == SelectReply(text)
  {
    assert Normalize(pre + text + post) == Normalize(text) by {
      Text.StripPadded(pre, text, post);
    }
    assert Normalize(Text.Lower(text)) == Normalize(text) by {
      Text.StripLower(text);
      Text.LowerIdempotent(Text.Strip(text));
    }
  }

  /** A router that owns a WhatsApp provider; `outbox` is every response handed to `send_message`. */
  class MessageRouter {
    const whatsapp: WhatsApp.WhatsAppProvider
    var outbox: seq<IMResponse>
    var requests: seq<WhatsApp.Request>

    /** The provider gets the plugin's access token and phone number id as its configuration. */
    constructor(accessToken: string, phoneNumberId: string, settings: WhatsApp.ProviderSettings)
      ensures whatsapp.config == map["access_token" := accessToken, "phone_number_id" := phoneNumberId]
      ensures outbox == [] && requests == []
    {
      whatsapp := new WhatsApp.WhatsAppProvider(
        map["access_token" := accessToken, "phone_number_id" := phoneNumberId], settings);
      outbox := [];
      requests := [];
    }

    /** Build a TEXT response for `sender` and send it; the send's outcome is discarded. */
    method Send(sender: string, msg: string, delivered: bool)
      modifies this
      ensures outbox == old(outbox) + [TextTo(sender, msg)]
      ensures requests == old(requests) + [WhatsApp.Request(
                whatsapp.baseUrl + "/" + WhatsApp.OptText(whatsapp.phoneNumberId) + "/messages",
                map["Authorization" := "Bearer " + WhatsApp.OptText(whatsapp.accessToken),
                    "Content-Type" := "application/json"],
                JsonOf(TextTo(sender, msg)))]
    {
      var response := NewIMResponse(sender, TEXT, msg, None);
      var _, request := whatsapp.SendMessage(response, delivered);
      outbox := outbox + [response];
      requests := requests + [request];
    }

    /** `route`: returns nothing and sends exactly one TEXT reply to the sender. */
    method Route(sender: string, text: string, delivered: bool)
      modifies this
      ensures outbox == old(outbox) + [TextTo(sender, SelectReply(text))]
      ensures |requests| == |old(requests)| + 1 && requests[..|old(requests)|] == old(requests)
      ensures requests[|requests| - 1].payload == JsonOf(TextTo(sender, SelectReply(text)))
    {
      var t := Text.Lower(Text.Strip(text));
      if t in ["view appointments", "appointments"] {
        HandleViewAppointments(sender, delivered);
      } else if t in ["about care", "about"] {
        HandleAboutCare(sender, delivered);
      } else {
        HandleMenu(sender, delivered);
      }
    }

    /** `_handle_menu` */
    method HandleMenu(sender: string, delivered: bool)
      modifies this
      ensures outbox == old(outbox) + [TextTo(sender, MENU_REPLY)]
      ensures |requests| == |old(requests)| + 1 && requests[..|old(requests)|] == old(requests)
      ensures requests[|requests| - 1].payload == JsonOf(TextTo(sender, MENU_REPLY))
    {
      Send(sender, MENU_REPLY, delivered);
    }

    /** `_handle_view_appointments` */
    method HandleViewAppointments(sender: string, delivered: bool)
      modifies this
      ensures outbox == old(outbox) + [TextTo(sender, APPOINTMENTS_REPLY)]
      ensures |requests| == |old(requests)| + 1 && requests[..|old(requests)|] == old(requests)
      ensures requests[|requests| - 1].payload == JsonOf(TextTo(sender, APPOINTMENTS_REPLY))
    {
      Send(sender, APPOINTMENTS_REPLY, delivered);
    }

    /** `_handle_about_care` */
    method HandleAboutCare(sender: string, delivered: bool)
      modifies this
      ensures outbox == old(outbox) + [TextTo(sender, ABOUT_REPLY)]
      ensures |requests| == |old(requests)| + 1 && requests[..|old(requests)|] == old(requests)
      ensures requests[|requests| - 1].payload == JsonOf(TextTo(sender, ABOUT_REPLY))
    {
      Send(sender, ABOUT_REPLY, delivered);
    }
  }

  /** The JSON body the provider posts for `response`. */
  function JsonOf(response: IMResponse): Json {
    JObj(WhatsApp.Payload(response))
  }

  /** A routed reply reaches the sender as a WhatsApp text message carrying the chosen reply. */
  lemma RoutedPayloadIsText(sender: string, text: string)
    ensures var p := WhatsApp.Payload(TextTo(sender, SelectReply(text)));
            p["to"] == JStr(sender) && p["type"] == JStr("text") &&
            p["text"] == JObj(map["body" := JStr(SelectReply(text))])
  {
  }
}
