/**
 * The handler for commands every user may send (help, menu), with and without a
 * signed-in user context. Each call answers with exactly one TEXT response.
 */
module CommonHandler {
  import opened Wrappers
  import opened IMBase
  import opened Commands

  const WELCOME_TEXT: string := "\U{1F44B} Welcome to the Care WhatsApp Bot!\nI'm here to assist you with your healthcare needs.\nType `help` to see what I can do for you."
  const ANONYMOUS_HELP: string := "\U{1F3E5} *CARE WhatsApp Bot Help*\n\nWelcome! I'm here to help you access your healthcare information.\n\n*Getting Started:*\n\U{2022} Type `login` to sign in\n\U{2022} Enter the 6-digit code sent to your phone\n\n*Need Help?*\nContact your healthcare provider for registration or support."
  const UNSUPPORTED_HELP: string := "Help not available for your account type."
  const ANONYMOUS_MENU: string := "\U{1F3E5} *CARE WhatsApp Bot*\n\nPlease log in to access the menu.\n\nType `login` to get started."
  const UNSUPPORTED_MENU: string := "Menu not available for your account type."
  const PATIENT_MENU: string := "\U{1F464} *Patient Menu*\n\nWhat would you like to do?\n\n\U{1F4CB} `records` - View medical records\n\U{1F48A} `medications` - View current medications\n\U{1F4C5} `appointments` - View upcoming appointments\n\U{1F3E5} `procedures` - View recent procedures\n\U{1F5D3}\U{FE0F} `available slots` - Check available appointment slots\n\U{1F4DE} `book appointment` - Book a new appointment\n\n\U{2139}\U{FE0F} `help` - Get help\n\U{1F6AA} `logout` - Sign out"
  const STAFF_MENU: string := "\U{1F468}\U{200D}\U{2695}\U{FE0F} *Hospital Staff Menu*\n\nWhat would you like to do?\n\n\U{1F50D} `search patient <name>` - Search for a patient\n\U{1F464} `patient info <id>` - Get patient information\n\U{1F4C5} `schedule appointment` - Schedule appointment\n\n\U{2139}\U{FE0F} `help` - Get help\n\U{1F6AA} `logout` - Sign out"
  const PATIENT_HELP: string := "\U{1F464} *Patient Help*\n\n*Available Commands:*\n\U{2022} `records` - View your medical records and history\n\U{2022} `medications` - See your current medications and dosages\n\U{2022} `appointments` - Check upcoming appointments\n\U{2022} `procedures` - View recent medical procedures\n\U{2022} `available slots` - Check available appointment slots\n\U{2022} `book appointment` - Book a new appointment\n\U{2022} `menu` - Show main menu\n\U{2022} `logout` - Sign out of the bot\n\n*Privacy & Security:*\n\U{2022} Your data is encrypted and secure\n\U{2022} Only you can access your information\n\U{2022} Sessions expire after 24 hours\n\n*Need Support?*\nContact your healthcare provider for assistance."
  const STAFF_HELP: string := "\U{1F468}\U{200D}\U{2695}\U{FE0F} *Hospital Staff Help*\n\n*Available Commands:*\n\U{2022} `search patient <name>` - Find patients by name\n\U{2022} `patient info <id>` - Get detailed patient information\n\U{2022} `schedule appointment` - Schedule new appointments\n\U{2022} `menu` - Show main menu\n\U{2022} `logout` - Sign out of the bot\n\n*Privacy Guidelines:*\n\U{2022} Only access patient data when necessary\n\U{2022} Do not share patient information via WhatsApp\n\U{2022} Use secure channels for sensitive data\n\n*Examples:*\n\U{2022} `search patient John Doe`\n\U{2022} `patient info P123456`\n\n*Need Support?*\nContact IT support for technical assistance."
  const UNKNOWN_COMMAND_TEXT: string := "\U{2753} I didn't understand that command. Type `help` or `menu` for options."
  const ERROR_TEXT: string := "Sorry, something went wrong while processing your request. Try again or type `help`."

  /** The help text: depends only on whether there is a context and on its user type. */
  function HelpText(context: Option<UserContext>): (r: string)
    ensures r == ANONYMOUS_HELP <==> context.None?
    ensures r == PATIENT_HELP <==> context.Some? && context.value.Kind() == Some(PATIENT)
    ensures r == STAFF_HELP <==> context.Some? && context.value.Kind() == Some(HOSPITAL_STAFF)
    ensures r == UNSUPPORTED_HELP <==>
            context.Some? && context.value.Kind() !in {Some(PATIENT), Some(HOSPITAL_STAFF)}
  {
    if context.None? then ANONYMOUS_HELP
    else
      match context.value.Kind()
      case Some(PATIENT) => PATIENT_HELP
      case Some(HOSPITAL_STAFF) => STAFF_HELP
      case _ => UNSUPPORTED_HELP
  }

  /** `get_menu_for_user_type`, with its fixed fallback for any other type. */
  function MenuForUserType(kind: Option<UserKind>): (r: string)
    ensures r == PATIENT_MENU <==> kind == Some(PATIENT)
    ensures r == STAFF_MENU <==> kind == Some(HOSPITAL_STAFF)
    ensures r == UNSUPPORTED_MENU <==> kind !in {Some(PATIENT), Some(HOSPITAL_STAFF)}
  {
    match kind
    case Some(PATIENT) => PATIENT_MENU
    case Some(HOSPITAL_STAFF) => STAFF_MENU
    case _ => UNSUPPORTED_MENU
  }

  /** The menu text: the log-in prompt without a context, else the user type's menu. */
  function MenuText(context: Option<UserContext>): (r: string)
    ensures r == ANONYMOUS_MENU <==> context.None?
    ensures context.Some? ==> r == MenuForUserType(context.value.Kind())
  {
    if context.None? then ANONYMOUS_MENU else MenuForUserType(context.value.Kind())
  }

  /** `_handle_welcome` */
  function HandleWelcome(message: IMMessage): (r: IMResponse)
    ensures r == TextTo(message.senderId, WELCOME_TEXT)
  {
    NewIMResponse(message.senderId, TEXT, WELCOME_TEXT, None)
  }

  /** `_handle_help` */
  function HandleHelp(message: IMMessage, context: Option<UserContext>): (r: seq<IMResponse>)
    ensures SingleTextReply(r, message.senderId) && r[0].content == HelpText(context)
  {
    [NewIMResponse(message.senderId, TEXT, HelpText(context), None)]
  }

  /** `_handle_menu` */
  function HandleMenu(message: IMMessage, context: Option<UserContext>): (r: seq<IMResponse>)
    ensures SingleTextReply(r, message.senderId) && r[0].content == MenuText(context)
  {
    [NewIMResponse(message.senderId, TEXT, MenuText(context), None)]
  }

  /**
   * `handle_command`: HELP and MENU go to their handlers, any other command gets
   * the welcome text (never the unknown-command text).
   */
  function HandleCommand(command: Command, message: IMMessage, context: Option<UserContext>): (r: seq<IMResponse>)
    ensures SingleTextReply(r, message.senderId)
    ensures command == HELP ==> r == HandleHelp(message, context)
    ensures command == MENU ==> r == HandleMenu(message, context)
    ensures command !in {HELP, MENU} ==> r[0].content == WELCOME_TEXT
  {
    if command == HELP then HandleHelp(message, context)
    else if command == MENU then HandleMenu(message, context)
    else [HandleWelcome(message)]
  }

  /** No command reaching this handler is answered with the unknown-command text. */
  lemma NeverUnknownCommand(command: Command, message: IMMessage, context: Option<UserContext>)
    ensures HandleCommand(command, message, context)[0].content != UNKNOWN_COMMAND_TEXT
  {
    var t := HandleCommand(command, message, context)[0].content;
    if command == HELP {
      assert t in {ANONYMOUS_HELP, PATIENT_HELP, STAFF_HELP, UNSUPPORTED_HELP};
    } else if command == MENU {
      assert t in {ANONYMOUS_MENU, PATIENT_MENU, STAFF_MENU, UNSUPPORTED_MENU};
    }
  }

  /** `_create_unknown_command_response` */
  function UnknownCommandResponse(phone: string): (r: IMResponse)
    ensures r == TextTo(phone, UNKNOWN_COMMAND_TEXT)
  {
    NewIMResponse(phone, TEXT, UNKNOWN_COMMAND_TEXT, None)
  }

  /** `_create_error_response` */
  function ErrorResponse(phone: string): (r: IMResponse)
    ensures r == TextTo(phone, ERROR_TEXT)
  {
    NewIMResponse(phone, TEXT, ERROR_TEXT, None)
  }
}
