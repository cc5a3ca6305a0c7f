# care_whatsapp_bot in Dafny

A Dafny model of the core of `care_whatsapp_bot`, the CARE hospital-platform plugin
that talks to patients and hospital staff over WhatsApp, together with proofs of the
properties that code promises.

What is modelled, one Dafny module per source file:

- **Authentication** (`authentication.dfy`). The one-time-password authenticator is a
  state machine over a cache with expiring entries. Each phone has four keys: `otp`,
  `attempts`, `rate_limit` and `session`. The cache is a map from key to
  (value, expiry) read at an explicit clock `now`. Each operation is specified as a
  function of the cache before the call. The class `Authenticator` is proved to follow
  those functions. Lemmas cover phone normalisation, the three-try limit, the lock-out,
  the 24-hour session and the patient-before-staff identity lookup.
- **Router and handlers** (`router.dfy`, `common.dfy`, `patient.dfy`, `staff.dfy`).
  - The keyword router is a class whose `Route` appends exactly one TEXT reply to an
    outbox.
  - The common, patient and staff handlers are dispatch functions over closed command
    and user-kind types.
  - Their list builders are loops, proved against listing functions.
  - Database reads are tables of records that either hold rows or raise.
- **Formatting and privacy** (`data_formatter.dfy`, `privacy_filter.dfy`): message
  truncation, list capping, phone display and masking, age arithmetic and the
  allow-listed record views.
- **Provider adapter** (`base.dfy`, `whatsapp.dfy`): the webhook payload parser, the
  outbound payload, the signature check with an uninterpreted HMAC, and the subscribe
  handshake.
- **Monitoring** (`error_handler.dfy`):
  - the error mapping, with the bounded error log in the cache;
  - the daily error summary, whose loops are proved against a scan function;
  - the retry decision table and the backoff loop;
  - the metric counters.
- **Configuration** (`environment.dfy`, `settings.dfy`):
  - environment detection and the validators that collect errors and warnings;
  - the plugin settings object, with its lookup precedence, attribute cache, reload
    and validation.
- **Reminders, models, serializer** (`reminders.dfy`, `models.dfy`, `serializer.dfy`):
  - the appointment-reminder planner and its deduplicating scan;
  - the status mutators of the stored message rows;
  - the webhook serializer's phone-number pattern, which loosely follows the 15-digit
    limit of ITU-T E.164, clause 6.

Shared modules:

- `wrappers.dfy`: `Option`.
- `text.dfy`: the Python string operations used, i.e. digit filtering, `strip`, ASCII
  `lower`, slicing and decimal rendering.
- `pyjson.dfy`: JSON-like Python values, their truthiness and the `KeyError`,
  `IndexError` and `TypeError` of subscripting.
- `ordering.dfy`: stable sorting by key and capping.
- `commands.dfy`: commands and user contexts.
- `records.dfy`: database rows and tables.

Time is an integer count of seconds. Random draws, SMS and HTTP outcomes are
parameters.

## Model

| member | source | states |
|---|---|---|
| Authentication.NormalizePhone | care_whatsapp_bot/authentication.py:32-41 | the normalised number consists of digits only and is at most two characters longer than the input's digit string |
| Authentication.NormalizeTenDigits | care_whatsapp_bot/authentication.py:36-37 | a digit string of length 10 becomes "91" followed by those digits (12 digits) |
| Authentication.NormalizeTrunkZero | care_whatsapp_bot/authentication.py:38-39 | any other digit string starting with 0 has that 0 replaced by "91" |
| Authentication.NormalizeOtherwiseDigits | care_whatsapp_bot/authentication.py:34-41 | every other input yields exactly its digit string |
| Authentication.NormalizeSeesOnlyDigits | care_whatsapp_bot/authentication.py:34 | punctuation and spaces never change the result: normalising the digit string alone gives the same number |
| Authentication.NormalizeDigitString | care_whatsapp_bot/authentication.py:32-41 | on a pure digit string the result is the three-way case split of the source |
| Authentication.NormalizeIdempotentOnTen | care_whatsapp_bot/authentication.py:32-41 | when the input's digit string has length 10, normalising twice equals normalising once |
| Authentication.NormalizeNotIdempotent | care_whatsapp_bot/authentication.py:32-41 | a 9-digit string with a leading 0 normalises to 10 digits, which normalise again to a different number: normalisation is not idempotent in general |
| Authentication.KindOfKey | care_whatsapp_bot/authentication.py:28-30 | the key kind can be read back out of every cache key the bot writes |
| Authentication.CacheKeyInjective | care_whatsapp_bot/authentication.py:28-30 | distinct (phone, kind) pairs never share a cache key |
| Authentication.PhoneKeysDistinct | care_whatsapp_bot/authentication.py:28-30 | the otp, attempts, rate_limit and session keys of one phone are pairwise distinct |
| Authentication.GenerateStore | care_whatsapp_bot/authentication.py:66-82 | while rate-limited nothing is written; otherwise the code and attempts=0 are stored for 600 seconds, replacing any earlier challenge, and no other key changes |
| Authentication.GenerateReply | care_whatsapp_bot/authentication.py:66-90 | the code is returned exactly when the phone is not rate-limited and the SMS went out |
| Authentication.CodeHasSixDigits | care_whatsapp_bot/authentication.py:77 | a draw in [100000, 999999] is rendered as six digits |
| Authentication.RateLimitedGenerateIsNoop | care_whatsapp_bot/authentication.py:70-73 | while a live rate_limit entry exists, generate_otp returns None and leaves the cache as it was |
| Authentication.FailedSendKeepsChallenge | care_whatsapp_bot/authentication.py:78-90 | the challenge is stored before the SMS is sent, so a failed send returns None and leaves the code live |
| Authentication.GenerateOpensChallenge | care_whatsapp_bot/authentication.py:75-82 | after generate_otp the phone has a live challenge with the drawn code, no misses and a 600-second expiry |
| Authentication.VerifyReply | care_whatsapp_bot/authentication.py:92-126 | verify_otp answers True exactly when a live, non-empty code equals the guess and fewer than 3 misses are recorded |
| Authentication.VerifyKeepsWellKinded | care_whatsapp_bot/authentication.py:92-137 | verify_otp keeps every bot key holding a value of its own kind; attempts stay within 0..3 |
| Authentication.VerifyWithoutCode | care_whatsapp_bot/authentication.py:100-105 | with no live code, verify_otp returns False and changes nothing |
| Authentication.WrongGuess | care_whatsapp_bot/authentication.py:122-126 | a wrong guess with fewer than 3 misses returns False, records one more miss and refreshes the 600-second expiry |
| Authentication.RightGuess | care_whatsapp_bot/authentication.py:116-121 | the right code with fewer than 3 misses returns True, deletes the code and the miss count, stores a session lasting 24 hours under the session key, and changes no other key |
| Authentication.LockOut | care_whatsapp_bot/authentication.py:107-114 | after 3 misses even the right code is refused, the code is deleted and the phone is rate-limited for 300 seconds |
| Authentication.WrongGuesses | care_whatsapp_bot/authentication.py:122-126 | a run of wrong guesses inside the ten minutes leaves the challenge live with the misses counted |
| Authentication.AcceptedWithinThreeTries | care_whatsapp_bot/authentication.py:66-137 | after generate_otp, up to two wrong guesses followed by the right code within ten minutes signs the phone in |
| Authentication.RejectedOnFourthTry | care_whatsapp_bot/authentication.py:92-126 | after three wrong guesses the right code is refused on the fourth try and the phone is locked out |
| Authentication.SessionLifetime | care_whatsapp_bot/authentication.py:128-153 | a new session is honoured exactly until 24 hours have passed |
| Authentication.LazyExpiryNeverFires | care_whatsapp_bot/authentication.py:139-153 | under the model's single integer clock, where a session's cache timeout equals its expires_at, is_authenticated never deletes a session and answers whether one is live; a cache whose clock runs apart from `timezone.now()` is not modelled |
| Authentication.LogoutStore | care_whatsapp_bot/authentication.py:155-160 | logout removes the phone's session key and nothing else |
| Authentication.LogoutSignsOut | care_whatsapp_bot/authentication.py:155-160 | after logout the phone is not authenticated |
| Authentication.FirstPatient | care_whatsapp_bot/authentication.py:47-54 | the first patient whose phone contains the last ten digits; None when there is none or when the query raises |
| Authentication.FirstStaff | care_whatsapp_bot/authentication.py:55-62 | the first user whose phone contains the last ten digits; None when there is none or when the query raises |
| Authentication.Identify | care_whatsapp_bot/authentication.py:43-64 | patient exactly when a patient matches; staff exactly when no patient matches and a user does; otherwise unknown |
| Authentication.PatientsBeforeStaff | care_whatsapp_bot/authentication.py:43-64 | a phone matching both a patient and a staff user is identified as the patient |
| Authentication.PatientQueryFailureIsNoMatch | care_whatsapp_bot/authentication.py:53-54 | a patient query that raises behaves like one without a match |
| Authentication.NoDigitsMatchesAnyPhone | care_whatsapp_bot/authentication.py:48-50 | a sender without digits matches any stored phone, because the empty string is contained in every string |
| Authentication.ContextOf | care_whatsapp_bot/authentication.py:166-187 | a context exists exactly for a known user, with that user's type and the given phone |
| Authentication.Authenticator.GenerateOtp | care_whatsapp_bot/authentication.py:66-90 | the new cache is GenerateStore and the result is GenerateReply of the old cache |
| Authentication.Authenticator.VerifyOtp | care_whatsapp_bot/authentication.py:92-126 | the new cache and the result follow VerifyStore and VerifyReply, and the cache stays well kinded |
| Authentication.Authenticator.CreateAuthSession | care_whatsapp_bot/authentication.py:128-137 | stores the session entry for 24 hours under the phone's session key |
| Authentication.Authenticator.IsAuthenticated | care_whatsapp_bot/authentication.py:139-153 | False without a session, and an expired session is deleted |
| Authentication.Authenticator.Logout | care_whatsapp_bot/authentication.py:155-160 | the cache becomes LogoutStore of the old cache |
| Authentication.Authenticator.GetUserContext | care_whatsapp_bot/authentication.py:162-187 | None unless authenticated; otherwise the context of whoever the phone identifies |
| Router.ReplyFor | care_whatsapp_bot/message_router.py:14-19 | the appointments reply exactly for "view appointments"/"appointments", the About reply exactly for "about care"/"about", the menu for every other text |
| Router.Normalize | care_whatsapp_bot/message_router.py:13 | the normalised text is no longer than the original and has no surrounding whitespace left |
| Router.NormalizeIdempotent | care_whatsapp_bot/message_router.py:13 | stripping and lower-casing an already normalised text changes nothing |
| Router.SelectReply | care_whatsapp_bot/message_router.py:12-19 | the appointments reply exactly when the stripped, lower-cased text is "view appointments" or "appointments", the About reply exactly for "about care" or "about", the menu otherwise |
| Router.SelectIgnoresPaddingAndCase | care_whatsapp_bot/message_router.py:13 | surrounding whitespace and letter case never change which reply is chosen |
| Router.MessageRouter.constructor | care_whatsapp_bot/message_router.py:6-10 | the provider is configured with the plugin's access token and phone number id; nothing has been sent yet |
| Router.MessageRouter.Send | care_whatsapp_bot/message_router.py:23-28 | appends one TEXT response for the sender to the outbox and one POST of its payload to the provider's requests |
| Router.MessageRouter.Route | care_whatsapp_bot/message_router.py:12-19 | each call sends exactly one TEXT response, addressed to the sender, carrying the chosen reply |
| Router.MessageRouter.HandleMenu | care_whatsapp_bot/message_router.py:21-28 | sends the menu text to the sender, once |
| Router.MessageRouter.HandleViewAppointments | care_whatsapp_bot/message_router.py:30-38 | sends the no-appointments text to the sender, once |
| Router.MessageRouter.HandleAboutCare | care_whatsapp_bot/message_router.py:40-47 | sends the About text to the sender, once |
| Router.RoutedPayloadIsText | care_whatsapp_bot/message_router.py:12-47 | the routed reply goes to the sender as a WhatsApp message of type "text" whose body is the chosen reply |
| IMBase.MessageTypeOf | care_whatsapp_bot/im_wrapper/base.py:7-14 | looking up a value finds the member with that value, and nothing for any other string |
| IMBase.MessageTypeRoundTrip | care_whatsapp_bot/im_wrapper/base.py:7-14 | looking up a member's own value gives the member back |
| IMBase.NewIMMessage | care_whatsapp_bot/im_wrapper/base.py:17-29 | the fields are as given, and metadata None becomes the empty map |
| IMBase.NewIMResponse | care_whatsapp_bot/im_wrapper/base.py:32-42 | the fields are as given, and metadata None becomes the empty map |
| IMBase.TextTo | care_whatsapp_bot/im_wrapper/base.py:32-42 | a TEXT response to the recipient with the content and empty metadata |
| IMBase.DefaultValidateWebhookSignature | care_whatsapp_bot/im_wrapper/base.py:67-69 | the default check accepts every payload and signature |
| IMBase.DefaultGetUserProfile | care_whatsapp_bot/im_wrapper/base.py:71-73 | the default profile is the empty map |
| CommonHandler.HelpText | care_whatsapp_bot/handlers/common_handler.py:35-56 | depends only on the context: the log-in text exactly without a context, patient help exactly for patients, staff help exactly for hospital staff, the "not available" text exactly for every other kind |
| CommonHandler.MenuForUserType | care_whatsapp_bot/handlers/common_handler.py:72-79 | the patient menu exactly for patients, the staff menu exactly for staff, the fixed fallback exactly otherwise |
| CommonHandler.MenuText | care_whatsapp_bot/handlers/common_handler.py:58-70 | the log-in prompt exactly without a context, otherwise the menu for the user's type |
| CommonHandler.HandleWelcome | care_whatsapp_bot/handlers/common_handler.py:27-33 | one TEXT response to the sender with the welcome text |
| CommonHandler.HandleHelp | care_whatsapp_bot/handlers/common_handler.py:35-56 | a single TEXT response to the sender carrying the context's help text |
| CommonHandler.HandleMenu | care_whatsapp_bot/handlers/common_handler.py:58-70 | a single TEXT response to the sender carrying the context's menu |
| CommonHandler.HandleCommand | care_whatsapp_bot/handlers/common_handler.py:13-25 | every command gets a single TEXT response to the sender: HELP the help, MENU the menu, anything else the welcome text |
| CommonHandler.NeverUnknownCommand | care_whatsapp_bot/handlers/common_handler.py:13-25 | no command is ever answered with the unknown-command text |
| CommonHandler.UnknownCommandResponse | care_whatsapp_bot/handlers/common_handler.py:150-156 | a TEXT response to the phone with the unknown-command text |
| CommonHandler.ErrorResponse | care_whatsapp_bot/handlers/common_handler.py:158-164 | a TEXT response to the phone with the generic error text |
| PatientHandler.ErrorText | care_whatsapp_bot/handlers/patient_handler.py:316-325 | with a non-empty custom message the text is "❌ " and that message; otherwise it is the generic text |
| PatientHandler.UnknownCommandResponse | care_whatsapp_bot/handlers/patient_handler.py:308-314 | a TEXT response to the phone listing the patient commands |
| PatientHandler.ForPatient | care_whatsapp_bot/handlers/patient_handler.py:56-91 | a missing patient gives "❌ Patient not found.", a failing query gives the generic error, and a found patient (with that external id) gets the command's reply or the generic error when a later query fails |
| PatientHandler.ListReply | care_whatsapp_bot/handlers/patient_handler.py:65-83 | an empty result gives the fixed empty-result text; otherwise the text starts with the header and ends with the footer |
| PatientHandler.RecentEncounters | care_whatsapp_bot/handlers/patient_handler.py:59-63 | at most 5 of the patient's encounters from the last 180 days, newest first; with fewer than 5, all of them; with 5, no left-out match is newer than the fifth |
| PatientHandler.RecordEntryShowsPlaceholders | care_whatsapp_bot/handlers/patient_handler.py:70-82 | a records entry shows the date, the visit type and the two placeholders, never the encounter's clinical text |
| PatientHandler.RecordsListEncounter | care_whatsapp_bot/handlers/patient_handler.py:68-85 | the j-th newest recent encounter appears as entry j+1 between the header and the summary-only disclaimer |
| PatientHandler.HandleGetRecords | care_whatsapp_bot/handlers/patient_handler.py:54-91 | the loop builds exactly the records reply, sent as one TEXT response |
| PatientHandler.RecordsReply | care_whatsapp_bot/handlers/patient_handler.py:54-91 | an unknown patient id gets "❌ Patient not found."; a failed query the generic error; otherwise the no-records text when no recent encounter is selected, else a text opening with the records header and closing with the disclaimer |
| PatientHandler.ActiveMedications | care_whatsapp_bot/handlers/patient_handler.py:98-101 | exactly the patient's prescriptions with status active or on-hold, newest first, with no cap |
| PatientHandler.MedicationEntryShowsPlaceholders | care_whatsapp_bot/handlers/patient_handler.py:108-122 | a medication entry shows the name, the three placeholders and the status, never the prescribed dosage |
| PatientHandler.HandleGetMedications | care_whatsapp_bot/handlers/patient_handler.py:93-133 | the loop builds exactly the medications reply, sent as one TEXT response |
| PatientHandler.MedicationsReply | care_whatsapp_bot/handlers/patient_handler.py:93-133 | an unknown patient id gets the not-found text; a failed query the generic error; otherwise the no-medications text when no active prescription is selected, else a text between the medications header and footer |
| PatientHandler.UpcomingConsultations | care_whatsapp_bot/handlers/patient_handler.py:140-144 | exactly the patient's consultations without a discharge date created in the last 30 days, oldest first |
| PatientHandler.AppointmentEntryLines | care_whatsapp_bot/handlers/patient_handler.py:153-165 | an appointment entry shows date, facility, doctor and, when there is one, the consultation type |
| PatientHandler.HandleGetAppointments | care_whatsapp_bot/handlers/patient_handler.py:135-176 | the loop builds exactly the appointments reply, sent as one TEXT response |
| PatientHandler.AppointmentsReply | care_whatsapp_bot/handlers/patient_handler.py:135-176 | an unknown patient id gets the not-found text; a failed query the generic error; otherwise the no-appointments text when no open consultation is selected, else a text between the appointments header and the arrival reminder |
| PatientHandler.RecentProcedures | care_whatsapp_bot/handlers/patient_handler.py:183-189 | at most 5 of the patient's encounters from the last 90 days that have a procedure request or an observation, newest first; with fewer than 5, all of them; with 5, no left-out match is newer than the fifth |
| PatientHandler.ProcedureEntryShowsPlaceholders | care_whatsapp_bot/handlers/patient_handler.py:198-212 | a procedure entry shows the date, the two placeholders and the status "Completed" |
| PatientHandler.HandleGetProcedures | care_whatsapp_bot/handlers/patient_handler.py:178-223 | the loop builds exactly the procedures reply, sent as one TEXT response |
| PatientHandler.ProceduresReply | care_whatsapp_bot/handlers/patient_handler.py:178-223 | an unknown patient id gets the not-found text; a failed query the generic error; otherwise the no-procedures text when no recent procedure is selected, else a text between the procedures header and footer |
| PatientHandler.OpenFacilities | care_whatsapp_bot/handlers/patient_handler.py:233-236 | the first 5 active facilities of the three listed types, in table order; all of them when fewer |
| PatientHandler.AvailableStaff | care_whatsapp_bot/handlers/patient_handler.py:248-252 | the first 3 staff of the facility who joined no later than a week from now, in table order; all of them when fewer |
| PatientHandler.SlotEntry | care_whatsapp_bot/handlers/patient_handler.py:245-260 | one turn of the facility loop, with the inner loop over the doctors, gives that facility's entry |
| PatientHandler.SlotsListing | care_whatsapp_bot/handlers/patient_handler.py:242-264 | the facility loop gives the header, the numbered facility entries and the booking footer |
| PatientHandler.HandleCheckAvailableSlots | care_whatsapp_bot/handlers/patient_handler.py:225-272 | sends exactly the slots reply: the not-found or generic error, the no-facilities text, or the listing |
| PatientHandler.SlotsReply | care_whatsapp_bot/handlers/patient_handler.py:225-272 | an unknown patient id gets the not-found text; a failed facility or staff query the generic error; no open facility gives the no-facilities text; otherwise a text between the slots header and the booking footer |
| PatientHandler.BookingReply | care_whatsapp_bot/handlers/patient_handler.py:274-300 | for an existing patient the fixed booking instructions; nothing is stored |
| PatientHandler.HandleBookAppointment | care_whatsapp_bot/handlers/patient_handler.py:274-306 | sends exactly the booking reply as one TEXT response |
| PatientHandler.CommandReply | care_whatsapp_bot/handlers/patient_handler.py:28-52 | no context gives the generic error; a context without a patient id gives "❌ Patient information not found." before any dispatch; the six commands go to their handlers and any other gets the unknown-command text |
| PatientHandler.HandleCommand | care_whatsapp_bot/handlers/patient_handler.py:28-52 | every path answers the sender with exactly one TEXT response carrying the command's reply |
| StaffHandler.ErrorText | care_whatsapp_bot/handlers/staff_handler.py:207-216 | with a non-empty custom message the text is "❌ " and that message; otherwise it is the generic IT-support text |
| StaffHandler.UnknownCommandResponse | care_whatsapp_bot/handlers/staff_handler.py:199-205 | a TEXT response to the phone listing the staff commands |
| StaffHandler.KeywordArgument | care_whatsapp_bot/handlers/staff_handler.py:51-67 | when the lowered text starts with the long keyword, the rest after that many characters, stripped; else likewise for the short keyword; else the fallback |
| StaffHandler.ExtractSearchQueryAsWritten | care_whatsapp_bot/handlers/staff_handler.py:51-58 | after "search patient " (any case, tested on the stripped text) the unstripped text from character 15 on, stripped; else after "/search " from character 8; else the stripped text |
| StaffHandler.ExtractPatientIdAsWritten | care_whatsapp_bot/handlers/staff_handler.py:60-67 | after "patient info " the unstripped text from character 13 on, stripped; else after "/patient " from character 9; else the stripped text |
| StaffHandler.ExtractSearchQuery | care_whatsapp_bot/handlers/staff_handler.py:51-58 | the query is cut from the stripped text, 15 characters after "search patient "; on a message without surrounding whitespace it equals the source's extraction |
| StaffHandler.ExtractPatientId | care_whatsapp_bot/handlers/staff_handler.py:60-67 | the id is cut from the stripped text, 13 characters after "patient info "; on a message without surrounding whitespace it equals the source's extraction |
| StaffHandler.PaddingKeepsStrippedForms | care_whatsapp_bot/handlers/staff_handler.py:53-62 | surrounding whitespace changes neither the lowered, stripped text nor the stripped text |
| StaffHandler.ExtractIgnoresPadding | care_whatsapp_bot/handlers/staff_handler.py:51-67 | the corrected extractors give the same query and patient id however the message is padded with whitespace |
| StaffHandler.KeywordFollowedBy | care_whatsapp_bot/handlers/staff_handler.py:51-67 | after a keyword in any letter case, the argument is the stripped rest of the message, whichever text is sliced |
| StaffHandler.ExtractSearchKeyword | care_whatsapp_bot/handlers/staff_handler.py:51-58 | "search patient " or "/search " in any case followed by a query gives the stripped query, as written and corrected |
| StaffHandler.ExtractPatientIdKeyword | care_whatsapp_bot/handlers/staff_handler.py:60-67 | "patient info " or "/patient " in any case followed by an id gives the stripped id, as written and corrected |
| StaffHandler.KeywordAfterPadding | care_whatsapp_bot/handlers/staff_handler.py:51-58 | as written, leading whitespace before the keyword makes the slice start inside the keyword, keeping its last characters |
| StaffHandler.SearchQueryPaddingCounterexample | care_whatsapp_bot/handlers/staff_handler.py:51-58 | "  search patient Bob" is read as the query "t Bob" as written, and as "Bob" by the corrected extractor |
| StaffHandler.MatchingPatients | care_whatsapp_bot/handlers/staff_handler.py:78-82 | at most 10 patients whose name, phone or external id contains the query, ignoring case; with fewer than 10, all of them |
| StaffHandler.SearchEntryShowsMaskedPhone | care_whatsapp_bot/handlers/staff_handler.py:90-105 | a search result shows name, id, age and gender when known, and only the masked phone |
| StaffHandler.SearchReply | care_whatsapp_bot/handlers/staff_handler.py:69-115 | a query under 2 characters gets the prompt without a lookup; a missing staff user or a failing query gives the error texts; no matches echo the query; otherwise the results lie between the header and the footer |
| StaffHandler.SearchListsMatch | care_whatsapp_bot/handlers/staff_handler.py:88-107 | the j-th match is numbered j+1 in the search results |
| StaffHandler.HandlePatientSearch | care_whatsapp_bot/handlers/staff_handler.py:69-115 | the loop builds exactly the search reply, sent as one TEXT response |
| StaffHandler.RecentEncounters | care_whatsapp_bot/handlers/staff_handler.py:154-156 | at most 3 of the patient's encounters, newest first; with fewer than 3, all of them; with 3, no left-out encounter is newer than the third |
| StaffHandler.StaffViewLines | care_whatsapp_bot/handlers/staff_handler.py:136-152 | the staff view supplies the patient's name and id, the computed age, the gender, and the masked phone |
| StaffHandler.PatientSummaryShowsMaskedPhone | care_whatsapp_bot/handlers/staff_handler.py:138-152 | the summary shows name, id, age, gender and blood group when present, and only the masked phone |
| StaffHandler.EncountersSection | care_whatsapp_bot/handlers/staff_handler.py:158-162 | no encounters add nothing; otherwise the section starts with the encounters header |
| StaffHandler.InfoText | care_whatsapp_bot/handlers/staff_handler.py:136-164 | the patient summary, then the encounters section, then the summary-only footer |
| StaffHandler.InfoReply | care_whatsapp_bot/handlers/staff_handler.py:117-134 | an empty id gets the prompt; an unknown id gets "❌ Patient with ID '<id>' not found."; an inactive staff user is refused; otherwise the patient summary with the footer; the access check is the user's active flag (lines 190-197) |
| StaffHandler.CheckPatientAccess | care_whatsapp_bot/handlers/staff_handler.py:190-197 | access is granted exactly when the staff user is active, whichever patient is asked for |
| StaffHandler.HandlePatientInfo | care_whatsapp_bot/handlers/staff_handler.py:117-172 | the method builds exactly the patient-info reply, sent as one TEXT response |
| StaffHandler.CommandReply | care_whatsapp_bot/handlers/staff_handler.py:29-49 | no context gives the generic error; no user id gives "❌ Staff information not found."; the three commands go to search, info and the fixed scheduling redirect; anything else gets the unknown-command text; scheduling gives the fixed redirect text of lines 174-188 |
| StaffHandler.HandleCommand | care_whatsapp_bot/handlers/staff_handler.py:29-49 | every path answers the sender with exactly one TEXT response carrying the command's reply |
| DataFormatter.TruncationSuffixLength | care_whatsapp_bot/utils/data_formatter.py:267 | the truncation suffix has 84 characters, more than the 50 the truncation reserves for it |
| DataFormatter.KeptLength | care_whatsapp_bot/utils/data_formatter.py:261-265 | the kept prefix is cut back to the last space only when that space lies beyond index 3996, and otherwise is kept whole |
| DataFormatter.TruncateKeeping | care_whatsapp_bot/utils/data_formatter.py:256-267 | a message within the limit is unchanged; a longer one becomes a kept prefix followed by the suffix |
| DataFormatter.TruncateAsWritten | care_whatsapp_bot/utils/data_formatter.py:256-267 | as written: a message within 4096 characters is unchanged; a longer one keeps a prefix of 3997 to 4046 characters and appends the suffix |
| DataFormatter.TruncateAsWrittenExceedsLimit | care_whatsapp_bot/utils/data_formatter.py:261-267 | as written, a long message without a space among characters 3997-4045 comes out with 4130 characters, over the 4096 limit |
| DataFormatter.TruncateAsWrittenCounterexample | care_whatsapp_bot/utils/data_formatter.py:256-267 | some message over the limit (5000 characters without spaces) is still over the limit after truncation as written |
| DataFormatter.Truncate | care_whatsapp_bot/utils/data_formatter.py:256-267 | corrected: never over 4096 characters; unchanged within the limit; otherwise a prefix longer than 3996 characters followed by the suffix |
| DataFormatter.TruncateIdempotent | care_whatsapp_bot/utils/data_formatter.py:256-267 | truncating twice is the same as truncating once |
| DataFormatter.FieldLinesEmpty | care_whatsapp_bot/utils/data_formatter.py:19-32 | the optional field lines are empty exactly when none of the fields is truthy |
| DataFormatter.FieldLinesReadOnlyFields | care_whatsapp_bot/utils/data_formatter.py:19-32 | the field lines depend only on the listed fields of the record |
| DataFormatter.MoreLine | care_whatsapp_bot/utils/data_formatter.py:64-65 | the "... and n more" line appears exactly when there are more than 10 items, and names the count beyond 10 |
| DataFormatter.Shown | care_whatsapp_bot/utils/data_formatter.py:48 | the shown items are the first min(n, 10) |
| DataFormatter.ListMessage | care_whatsapp_bot/utils/data_formatter.py:40-181 | an empty list gives the fixed empty text; a shown item that is not a dict gives the error text; otherwise the body with the corrected truncation, never over 4096 characters |
| DataFormatter.ListBodyShowsItem | care_whatsapp_bot/utils/data_formatter.py:48-65 | shown item j appears as entry j+1, between the header and the "more" line |
| DataFormatter.FormatList | care_whatsapp_bot/utils/data_formatter.py:40-73 | the list loop builds exactly the list message |
| DataFormatter.FormatMedicationList | care_whatsapp_bot/utils/data_formatter.py:40-73 | the medication message; an empty list gives "No active medications found." |
| DataFormatter.FormatAppointmentList | care_whatsapp_bot/utils/data_formatter.py:75-108 | the appointment message; an empty list gives "No upcoming appointments found." |
| DataFormatter.FormatMedicalRecords | care_whatsapp_bot/utils/data_formatter.py:110-143 | the records message; an empty list gives "No recent medical records found." |
| DataFormatter.FormatSearchResults | care_whatsapp_bot/utils/data_formatter.py:145-181 | the search message; an empty result gives a message that contains the query |
| DataFormatter.FormatPatientSummary | care_whatsapp_bot/utils/data_formatter.py:14-38 | the header and the truthy fields among name, id, age, gender and blood group, in that order, truncated; a non-dict gives the error text |
| DataFormatter.SummaryOfEmptyRecord | care_whatsapp_bot/utils/data_formatter.py:14-34 | a record with none of the five fields truthy is summarised as the header alone |
| DataFormatter.WithDetails | care_whatsapp_bot/utils/data_formatter.py:194-199 | details are appended after "\n\n" exactly when they are non-empty |
| DataFormatter.FormatErrorMessage | care_whatsapp_bot/utils/data_formatter.py:183-199 | the mapped text for a known error type and "❌ An error occurred." otherwise, followed by the details when there are any |
| DataFormatter.FormatSuccessMessage | care_whatsapp_bot/utils/data_formatter.py:201-215 | the mapped text for a known action and "✅ Success!" otherwise, followed by the details when there are any |
| DataFormatter.GroupDigits | care_whatsapp_bot/utils/data_formatter.py:245-252 | ten digits become "ddddd ddddd"; more become "+<country code> ddddd ddddd" with the last ten digits |
| DataFormatter.FormatPhoneNumber | care_whatsapp_bot/utils/data_formatter.py:237-254 | empty gives "Not available"; fewer than 10 digits give the original string; otherwise the grouped digits |
| DataFormatter.FormatPhoneKeepsDigits | care_whatsapp_bot/utils/data_formatter.py:237-254 | formatting a number of at least ten digits keeps exactly its digits, in order |
| DataFormatter.GroupDigitsKeepsDigits | care_whatsapp_bot/utils/data_formatter.py:245-252 | grouping adds only separators: the digits of the result are the input |
| DataFormatter.ButtonJson | care_whatsapp_bot/utils/data_formatter.py:276-282 | each button has exactly the keys type and reply, with type "reply" |
| DataFormatter.CreateInteractiveButtons | care_whatsapp_bot/utils/data_formatter.py:269-288 | at most the first 3 buttons, in order, each with id "btn_<i>_<id or i>" and default title "Option <i+1>"; {} when one of them is not a dict |
| PrivacyFilter.MaskPhone | care_whatsapp_bot/utils/privacy_filter.py:164-171 | empty gives "Unavailable"; over 4 characters gives "****" and the last 4; otherwise "****" |
| PrivacyFilter.MaskExposesAtMostFour | care_whatsapp_bot/utils/privacy_filter.py:164-171 | the mask never shows more than the last 4 characters of the number |
| PrivacyFilter.ReplaceYear | care_whatsapp_bot/utils/privacy_filter.py:153 | `date.replace(year=y)` fails exactly for 29 February in a year that is not a leap year |
| PrivacyFilter.YearsSinceIsWholeYears | care_whatsapp_bot/utils/privacy_filter.py:152-154 | the age is the number of whole years: the last birthday is not after today and the next one is |
| PrivacyFilter.CalculateAge | care_whatsapp_bot/utils/privacy_filter.py:147-162 | with a date of birth, "N years" in whole years (None if the replace fails); else with a year of birth "~N years"; else None |
| PrivacyFilter.LeapDayBirthHasNoAgeInCommonYear | care_whatsapp_bot/utils/privacy_filter.py:153-162 | a patient born on 29 February has no age in a year that is not a leap year |
| PrivacyFilter.EncounterTypeDisplay | care_whatsapp_bot/utils/privacy_filter.py:173-187 | inpatient, outpatient, emergency, virtual and home give "Hospital Stay", "Clinic Visit", "Emergency Visit", "Telemedicine" and "Home Visit"; a missing class reads as outpatient; an unlisted class gives "Medical Visit" |
| PrivacyFilter.DoctorName | care_whatsapp_bot/utils/privacy_filter.py:229-236 | "Dr. " followed by the full name when a doctor is assigned, "Healthcare Provider" otherwise |
| PrivacyFilter.MedicationName | care_whatsapp_bot/utils/privacy_filter.py:201-206 | the stored medication name, or "Prescribed medication" without the attribute |
| PrivacyFilter.ConsultationType | care_whatsapp_bot/utils/privacy_filter.py:238-243 | the stored consultation type, or "General Consultation" without the attribute |
| PrivacyFilter.ErrorView | care_whatsapp_bot/utils/privacy_filter.py:56-58 | the error view holds the single key "error" |
| PrivacyFilter.PatientView | care_whatsapp_bot/utils/privacy_filter.py:44-58 | exactly the seven allow-listed keys, with the phone always masked; a failing read gives the error view |
| PrivacyFilter.StaffPatientView | care_whatsapp_bot/utils/privacy_filter.py:60-76 | the staff keys, with the masked phone under "phone_masked" and the created date added; a failing read gives the error view |
| PrivacyFilter.PatientViewsAllowListed | care_whatsapp_bot/utils/privacy_filter.py:19-76 | neither patient view has a sensitive key; they have 7 and 8 keys; the staff view has no raw "phone_number" |
| PrivacyFilter.PatientKeysAvoidSensitiveFields | care_whatsapp_bot/utils/privacy_filter.py:47-55 | the patient view's seven keys avoid every sensitive field (the sensitive fields are listed at lines 19-33) |
| PrivacyFilter.StaffPatientKeysAvoidSensitiveFields | care_whatsapp_bot/utils/privacy_filter.py:60-76 | the staff view's eight keys avoid every sensitive field (the sensitive fields are listed at lines 19-33) |
| PrivacyFilter.EncounterKeysAvoidSensitiveFields | care_whatsapp_bot/utils/privacy_filter.py:78-91 | the encounter view's keys avoid every sensitive field (the sensitive fields are listed at lines 19-33) |
| PrivacyFilter.MedicationKeysAvoidSensitiveFields | care_whatsapp_bot/utils/privacy_filter.py:102-116 | the medication view's keys avoid every sensitive field (the sensitive fields are listed at lines 19-33) |
| PrivacyFilter.AppointmentKeysAvoidSensitiveFields | care_whatsapp_bot/utils/privacy_filter.py:118-131 | the appointment view's keys avoid every sensitive field (the sensitive fields are listed at lines 19-33) |
| PrivacyFilter.ProcedureKeysAvoidSensitiveFields | care_whatsapp_bot/utils/privacy_filter.py:133-145 | the procedure view's keys avoid every sensitive field (the sensitive fields are listed at lines 19-33) |
| PrivacyFilter.StaffViewExtendsPatientView | care_whatsapp_bot/utils/privacy_filter.py:44-76 | the staff view agrees with the patient view on every shared key and holds the same masked phone |
| PrivacyFilter.EncounterView | care_whatsapp_bot/utils/privacy_filter.py:189-199 | the encounter keys, with the complaint and diagnosis replaced by fixed placeholders; a failing read gives the error view (the keys are listed at lines 78-91) |
| PrivacyFilter.StaffEncounterView | care_whatsapp_bot/utils/privacy_filter.py:93-100 | the staff encounter view equals the patient encounter view |
| PrivacyFilter.MedicationView | care_whatsapp_bot/utils/privacy_filter.py:208-227 | the medication keys, with dosage, frequency and instructions replaced by placeholders and the real status; a failing read gives the error view (the keys are listed at lines 102-116) |
| PrivacyFilter.AppointmentView | care_whatsapp_bot/utils/privacy_filter.py:118-131 | the appointment keys, with status always "Scheduled"; a failing read gives the error view |
| PrivacyFilter.ProcedureView | care_whatsapp_bot/utils/privacy_filter.py:245-257 | the procedure keys, with status always "Completed" and placeholder name and facility; a failing read gives the error view (the keys are listed at lines 133-145) |
| PrivacyFilter.ViewsAvoidSensitiveFields | care_whatsapp_bot/utils/privacy_filter.py:78-145 | none of the record views ever has a sensitive key (the sensitive fields are listed at lines 19-33) |
| WhatsApp.Raised | care_whatsapp_bot/im_wrapper/whatsapp.py:90-92 | KeyError, IndexError and TypeError are caught and give None; an AttributeError escapes the handler (the try block opens at line 33) |
| WhatsApp.GetFirst | care_whatsapp_bot/im_wrapper/whatsapp.py:34-35 | `d.get(k, [])[0]`: the first item when present, IndexError when the key is missing, AttributeError on a non-dict |
| WhatsApp.ChangeValue | care_whatsapp_bot/im_wrapper/whatsapp.py:34-36 | the change's value can only be read from an object that has an "entry" key |
| WhatsApp.BodyOf | care_whatsapp_bot/im_wrapper/whatsapp.py:55-79 | the first of text, image, document, audio, video, location present in the message decides the type; with none of them it is empty text |
| WhatsApp.ParseTextDelivery | care_whatsapp_bot/im_wrapper/whatsapp.py:31-88 | a well-formed text delivery parses to a text message from its sender, with its body, timestamp, platform and message id |
| WhatsApp.Parse | care_whatsapp_bot/im_wrapper/whatsapp.py:31-92 | a parsed message carries the platform, message id, timestamp and raw message; a failure to reach the change value is raised as it is; only KeyError, IndexError and TypeError end as None, and only AttributeError escapes |
| WhatsApp.NoMessagesGivesNone | care_whatsapp_bot/im_wrapper/whatsapp.py:38-40 | a change without (truthy) messages gives None |
| WhatsApp.EmptyEntryGivesNone | care_whatsapp_bot/im_wrapper/whatsapp.py:90-92 | a payload with no entries raises IndexError, which is caught and gives None (the failing index is at line 34) |
| WhatsApp.ParsedMetadata | care_whatsapp_bot/im_wrapper/whatsapp.py:49-88 | every parsed message carries the platform, a message id, a timestamp and the raw message, and its type is decided by the raw message's keys |
| WhatsApp.BodyKind | care_whatsapp_bot/im_wrapper/whatsapp.py:55-79 | the parsed type is the kind of the first type key present |
| WhatsApp.BodyExtraKeys | care_whatsapp_bot/im_wrapper/whatsapp.py:58-79 | media add media_id; documents also a filename; locations latitude and longitude; text adds nothing |
| WhatsApp.NoKindKeyIsEmptyText | care_whatsapp_bot/im_wrapper/whatsapp.py:47-48 | a message with no type key is empty text |
| WhatsApp.Payload | care_whatsapp_bot/im_wrapper/whatsapp.py:103-133 | the payload names the product and the recipient; a text carries its body, an image its link and caption, a document its link, caption and filename ("document" by default); buttons make it interactive whatever the type; no other key is set |
| WhatsApp.ButtonsOverrideType | care_whatsapp_bot/im_wrapper/whatsapp.py:108-133 | buttons on a text reply set the type to interactive but leave the text part in the payload |
| WhatsApp.StripScheme | care_whatsapp_bot/im_wrapper/whatsapp.py:158-159 | a leading "sha256=" is removed, anything else is kept |
| WhatsApp.SignatureValid | care_whatsapp_bot/im_wrapper/whatsapp.py:151-171 | without an app secret every payload is accepted; with one, exactly the signatures equal to the HMAC hex digest (after the optional scheme) are |
| WhatsApp.SignatureSchemeOptional | care_whatsapp_bot/im_wrapper/whatsapp.py:158-167 | the digest is accepted with and without the "sha256=" prefix |
| WhatsApp.WrongSignatureRejected | care_whatsapp_bot/im_wrapper/whatsapp.py:161-167 | with a secret set, any signature other than the digest is rejected |
| WhatsApp.VerifyWebhook | care_whatsapp_bot/im_wrapper/whatsapp.py:190-194 | the challenge is returned exactly when the mode is "subscribe" and the token equals the verify token |
| WhatsApp.UnconfiguredTokenAcceptsMissingToken | care_whatsapp_bot/im_wrapper/whatsapp.py:192 | with no verify token configured, a subscribe request without a token is accepted (the token is read at line 23) |
| WhatsApp.ConfigOr | care_whatsapp_bot/im_wrapper/whatsapp.py:21-24 | a non-empty configured value wins, otherwise the settings value |
| WhatsApp.WhatsAppProvider.constructor | care_whatsapp_bot/im_wrapper/whatsapp.py:19-26 | each credential is the configured value or the setting; the API version defaults to v23.0 and the base URL is built from it |
| WhatsApp.WhatsAppProvider.ParseIncomingMessage | care_whatsapp_bot/im_wrapper/whatsapp.py:31-92 | parsing an incoming payload is the parse function above |
| WhatsApp.WhatsAppProvider.SendMessage | care_whatsapp_bot/im_wrapper/whatsapp.py:94-149 | posts the payload to "<base>/<phone id>/messages" with the bearer token; the result is whether delivery succeeded |
| WhatsApp.WhatsAppProvider.ValidateWebhookSignature | care_whatsapp_bot/im_wrapper/whatsapp.py:151-171 | the signature check of the configured secret |
| WhatsApp.WhatsAppProvider.GetUserProfile | care_whatsapp_bot/im_wrapper/whatsapp.py:173-188 | requests "<base>/<user>" with the bearer token; the fetched profile, or {} on failure |
| WhatsApp.WhatsAppProvider.VerifyWebhookRequest | care_whatsapp_bot/im_wrapper/whatsapp.py:190-194 | the webhook handshake against the configured verify token |
| ErrorHandler.MappedCodesAreTheMappingKeys | care_whatsapp_bot/monitoring/error_handler.py:51-94 | the codes the summary walks are exactly the keys of the error table |
| ErrorHandler.MappingFor | care_whatsapp_bot/monitoring/error_handler.py:105-110 | a list or dict code cannot be looked up (TypeError); a mapped number gives its table entry; anything else gives none |
| ErrorHandler.ParseApiError | care_whatsapp_bot/monitoring/error_handler.py:98-128 | fails exactly when the body cannot be read, the error is not a dict or the code is unhashable; otherwise the context holds the code, now, retry 0 and the four detail keys |
| ErrorHandler.MappedCodeTakesTableEntry | care_whatsapp_bot/monitoring/error_handler.py:100-128 | a mapped code takes its category, severity, message and suggested action from the table |
| ErrorHandler.UnmappedCodeIsUnknown | care_whatsapp_bot/monitoring/error_handler.py:105-110 | an unmapped or missing code gives category unknown, severity medium and the API's own message |
| ErrorHandler.UnreadableResponsesFail | care_whatsapp_bot/monitoring/error_handler.py:100-133 | a body that is not JSON, not an object, or whose error is not an object leads to the fallback |
| ErrorHandler.FallbackError | care_whatsapp_bot/monitoring/error_handler.py:154-167 | PARSE_ERROR, unknown, medium, with the status code in the message and the status, text and context in the details |
| ErrorHandler.NetworkError | care_whatsapp_bot/monitoring/error_handler.py:135-152 | NETWORK_ERROR, network, high, "Network error: " and the exception text, with its type and the context |
| ErrorHandler.CachingKeepsNewest100 | care_whatsapp_bot/monitoring/error_handler.py:182-199 | caching appends the error to its code's list for the day, keeping the newest 100, and changes no other list |
| ErrorHandler.DayReads | care_whatsapp_bot/monitoring/error_handler.py:215-216 | one read per mapped code, in the table's order, for the day |
| ErrorHandler.SummaryReads | care_whatsapp_bot/monitoring/error_handler.py:210-216 | every read of the summary is of a mapped code |
| ErrorHandler.ScanStep | care_whatsapp_bot/monitoring/error_handler.py:217-227 | reading one more code adds its cached list to the tally |
| ErrorHandler.ScanTotal | care_whatsapp_bot/monitoring/error_handler.py:219-220 | the total is the number of cached errors over all reads |
| ErrorHandler.TallyKeepsBreakdown | care_whatsapp_bot/monitoring/error_handler.py:222-225 | adding one code's errors keeps the category and severity breakdown summing to the total |
| ErrorHandler.ScanBreakdown | care_whatsapp_bot/monitoring/error_handler.py:217-227 | the category and severity counts each sum to the total |
| ErrorHandler.ScanRecentCount | care_whatsapp_bot/monitoring/error_handler.py:226-227 | at most 10 recent errors are taken per read |
| ErrorHandler.ScanRecentOrigin | care_whatsapp_bot/monitoring/error_handler.py:226-227 | the recent errors are exactly the last ten cached under each read key |
| ErrorHandler.ScanIgnoresUnreadKeys | care_whatsapp_bot/monitoring/error_handler.py:215-218 | lists under keys the summary does not read never change it |
| ErrorHandler.NotADecimal | care_whatsapp_bot/monitoring/error_handler.py:215-218 | a code that does not start with a digit is never the text of a numeric code |
| ErrorHandler.SummaryIgnoresNonApiCodes | care_whatsapp_bot/monitoring/error_handler.py:201-236 | network and parse errors are cached but never appear in the error summary (the network and parse error handlers are at lines 135-167) |
| ErrorHandler.SummaryCounts | care_whatsapp_bot/monitoring/error_handler.py:201-236 | the summary's total is the number of cached API errors over the days read, and its breakdowns sum to it |
| ErrorHandler.SummaryRecent | care_whatsapp_bot/monitoring/error_handler.py:229-234 | the 20 newest of the gathered recent errors, newest first; all of them when fewer than 20; each one was among the last ten of a read key |
| ErrorHandler.WhatsAppErrorHandler.constructor | care_whatsapp_bot/monitoring/error_handler.py:95-96 | the handler starts from the given cache |
| ErrorHandler.WhatsAppErrorHandler.HandleApiError | care_whatsapp_bot/monitoring/error_handler.py:98-133 | the parsed context, cached, or the fallback context, not cached |
| ErrorHandler.WhatsAppErrorHandler.HandleNetworkError | care_whatsapp_bot/monitoring/error_handler.py:135-152 | the network context, cached |
| ErrorHandler.WhatsAppErrorHandler.CacheError | care_whatsapp_bot/monitoring/error_handler.py:182-199 | the cache afterwards is the old one with the error added |
| ErrorHandler.WhatsAppErrorHandler.GetErrorSummary | care_whatsapp_bot/monitoring/error_handler.py:201-236 | the loop builds exactly the summary function's result |
| ErrorHandler.ScanDays | care_whatsapp_bot/monitoring/error_handler.py:210-227 | the day loop builds the scan of all the summary's reads |
| ErrorHandler.ReadDay | care_whatsapp_bot/monitoring/error_handler.py:213-227 | the code loop extends the scan by one day's reads |
| ErrorHandler.ReadCode | care_whatsapp_bot/monitoring/error_handler.py:216-227 | reading one code tallies that code's cached list |
| ErrorHandler.ShouldRetry | care_whatsapp_bot/monitoring/error_handler.py:267-285 | never for authentication and validation; always for network and rate limit; API errors only before their second retry; never otherwise |
| ErrorHandler.RetryForMappedCodes | care_whatsapp_bot/monitoring/error_handler.py:267-285 | auth and permission codes are never retried, rate limits always, parameter and recipient errors only for the first two tries (the code table is at lines 51-94) |
| ErrorHandler.Pow2 | care_whatsapp_bot/monitoring/error_handler.py:262 | powers of two are at least 1 |
| ErrorHandler.Backoff | care_whatsapp_bot/monitoring/error_handler.py:262-264 | m retries wait m times |
| ErrorHandler.Pow2Grows | care_whatsapp_bot/monitoring/error_handler.py:262 | powers of two grow with the exponent |
| ErrorHandler.BackoffShape | care_whatsapp_bot/monitoring/error_handler.py:262-264 | each wait is `min(base * 2^k, max)`, never over the maximum, and the waits never decrease |
| ErrorHandler.MulMonotone | care_whatsapp_bot/monitoring/error_handler.py:262 | multiplying by a natural keeps order |
| ErrorHandler.FirstSuccess | care_whatsapp_bot/monitoring/error_handler.py:251-253 | the index of the first successful call among n, or -1 when all fail |
| ErrorHandler.RetryHandler.constructor | care_whatsapp_bot/monitoring/error_handler.py:242-245 | keeps the retry count and the two delays |
| ErrorHandler.RetryHandler.RetryWithBackoff | care_whatsapp_bot/monitoring/error_handler.py:247-265 | returns the first success after that many calls and waits; otherwise raises the last error after max_retries + 1 calls; with a negative count, raises None without calling |
| ErrorHandler.FirstSuccessIs | care_whatsapp_bot/monitoring/error_handler.py:251-253 | the first success is the unique k that succeeds after k failures |
| ErrorHandler.SentCounts | care_whatsapp_bot/monitoring/error_handler.py:294-307 | a sent message adds one to the sent count, one to exactly one of success and failed, one to its type, and nothing else |
| ErrorHandler.WhatsAppMonitor.constructor | care_whatsapp_bot/monitoring/error_handler.py:291-292 | the monitor starts from the given counters |
| ErrorHandler.WhatsAppMonitor.RecordMessageSent | care_whatsapp_bot/monitoring/error_handler.py:294-307 | the counters after recording a sent message |
| ErrorHandler.WhatsAppMonitor.RecordMessageReceived | care_whatsapp_bot/monitoring/error_handler.py:309-314 | bumps the received count and the received-by-type count |
| ErrorHandler.WhatsAppMonitor.RecordUserInteraction | care_whatsapp_bot/monitoring/error_handler.py:316-321 | bumps the interaction count and the command's count |
| ErrorHandler.WhatsAppMonitor.IncrementCounter | care_whatsapp_bot/monitoring/error_handler.py:323-326 | adds one to the one counter |
| ErrorHandler.WhatsAppMonitor.GetMetricsSummary | care_whatsapp_bot/monitoring/error_handler.py:328-359 | one entry per day, the sent total, the success percentage when anything was sent, and received and top commands left empty |
| EnvironmentManager.EnvironmentNamed | care_whatsapp_bot/config/environment_manager.py:40-44 | exactly the four environment names are recognised, each as itself |
| EnvironmentManager.DetectEnvironment | care_whatsapp_bot/config/environment_manager.py:37-55 | a recognised name (in any letter case) wins; else DEBUG means development; else a local domain means development, a staging or dev domain staging, and any other production |
| EnvironmentManager.UnsetDomainIsDevelopment | care_whatsapp_bot/config/environment_manager.py:49-51 | without a domain setting, the default "localhost" makes a non-debug deployment development |
| EnvironmentManager.ExplicitNameWins | care_whatsapp_bot/config/environment_manager.py:40-44 | a DJANGO_ENVIRONMENT naming an environment in any letter case selects it, whatever DEBUG and the domain say |
| EnvironmentManager.RequiredConfigs | care_whatsapp_bot/config/environment_manager.py:57-91 | three keys everywhere, with the app secret and the webhook URL added in production, without repeats |
| EnvironmentManager.ValidateAccessToken | care_whatsapp_bot/config/environment_manager.py:126-137 | valid exactly when the token starts with "EAA"; a warning when it is shorter than 100 characters |
| EnvironmentManager.ValidatePhoneNumberId | care_whatsapp_bot/config/environment_manager.py:139-150 | valid exactly when the id is all digits; a warning when it is shorter than 10 |
| EnvironmentManager.ValidateVerifyToken | care_whatsapp_bot/config/environment_manager.py:152-160 | always valid; a warning when shorter than 8 characters |
| EnvironmentManager.ValidateAppSecret | care_whatsapp_bot/config/environment_manager.py:162-170 | always valid; a warning when shorter than 16 characters |
| EnvironmentManager.ValidateWebhookUrl | care_whatsapp_bot/config/environment_manager.py:172-183 | valid exactly when the URL is https and not local; one error for each failing condition; no warnings |
| EnvironmentManager.KeysFindingsStep | care_whatsapp_bot/config/environment_manager.py:99-112 | one more key appends its own errors and warnings |
| EnvironmentManager.KeyFindingsPass | care_whatsapp_bot/config/environment_manager.py:101-112 | a key contributes no error exactly when it is set and its validator accepts it |
| EnvironmentManager.AllPassSnoc | care_whatsapp_bot/config/environment_manager.py:99-112 | all keys pass exactly when the earlier ones and the last one do |
| EnvironmentManager.KeysFindingsPass | care_whatsapp_bot/config/environment_manager.py:99-112 | the key loop reports no error exactly when every key is set and accepted |
| EnvironmentManager.ValidIffEveryRequiredKeyPasses | care_whatsapp_bot/config/environment_manager.py:93-124 | the configuration is valid exactly when there are no errors, exactly when every required key passes |
| EnvironmentManager.NonProductionValidity | care_whatsapp_bot/config/environment_manager.py:93-124 | outside production, valid exactly when the token starts with "EAA", the phone id is digits and a verify token is set |
| EnvironmentManager.MissingKeyReported | care_whatsapp_bot/config/environment_manager.py:103-105 | an unset required key is reported as required for the environment, and gives nothing else |
| EnvironmentManager.WarningOnlyKeys | care_whatsapp_bot/config/environment_manager.py:152-170 | a set verify token or app secret never makes the configuration invalid |
| EnvironmentManager.ProductionLocalUrlReportedTwice | care_whatsapp_bot/config/environment_manager.py:114-117 | in production a local webhook URL is reported by both the URL check and the production check, and is invalid (the URL check's own localhost error is at lines 180-181) |
| EnvironmentManager.WhatsAppEnvironmentManager.constructor | care_whatsapp_bot/config/environment_manager.py:33-35 | the manager's environment is the detected one |
| EnvironmentManager.WhatsAppEnvironmentManager.ValidateConfiguration | care_whatsapp_bot/config/environment_manager.py:93-124 | the validation of the current settings, valid exactly when error-free |
| EnvironmentManager.WhatsAppEnvironmentManager.GetConfigurationSummary | care_whatsapp_bot/config/environment_manager.py:185-198 | the environment's name, the validity and the counts of the validation, and which settings are present |
| Reminders.FormatPhoneNumber | care_whatsapp_bot/services/appointment_reminder_service.py:194-211 | only digits; "91" is prefixed exactly to ten-digit numbers not already starting with 91, every other number keeps its digits |
| Reminders.FormatDiffersFromAuthenticator | care_whatsapp_bot/services/appointment_reminder_service.py:194-211 | a ten-digit number starting with 91 is left alone here but prefixed by the authenticator's normaliser |
| Reminders.FormatAgreesOnPlainTenDigits | care_whatsapp_bot/services/appointment_reminder_service.py:194-211 | on any other ten-digit number the two formatters agree |
| Reminders.FacilityName | care_whatsapp_bot/services/appointment_reminder_service.py:83 | "Unknown Facility" when the consultation has no facility |
| Reminders.DoctorName | care_whatsapp_bot/services/appointment_reminder_service.py:86-88 | "your doctor" when no physician is assigned |
| Reminders.NotificationFor | care_whatsapp_bot/services/appointment_reminder_service.py:71-137 | a pending appointment reminder for the patient and consultation, titled by its kind, at the given time |
| Reminders.ReminderMessage | care_whatsapp_bot/services/appointment_reminder_service.py:82-113 | the text opens "Hello <patient>,", names "<doctor> at <facility>", gives the date and time lines, and closes "Thank you,\n<facility> Team"; the hour reminder says "is in <n> hours." |
| Reminders.PlannedReminders | care_whatsapp_bot/services/appointment_reminder_service.py:23-69 | none without a phone; otherwise the day-before and two-hours-before reminders, each only when still in the future |
| Reminders.PlannedArePending | care_whatsapp_bot/services/appointment_reminder_service.py:43-66 | at most two reminders, each a pending appointment reminder of the consultation timed after now |
| Reminders.PlannedNonEmpty | care_whatsapp_bot/services/appointment_reminder_service.py:23-69 | some reminder is planned exactly when the patient has a phone and the appointment is more than two hours away |
| Reminders.SingleOffset | care_whatsapp_bot/services/appointment_reminder_service.py:43-66 | one offset gives one reminder at the appointment minus the offset, when that is in the future |
| Reminders.TooLateForReminders | care_whatsapp_bot/services/appointment_reminder_service.py:43-66 | an appointment within two hours gets no reminder |
| Reminders.Upcoming | care_whatsapp_bot/services/appointment_reminder_service.py:151-155 | a consultation is selected exactly when it is among the consultations, lies between now and the look-ahead end and is not discharged |
| Reminders.ScanAppendsPendingReminders | care_whatsapp_bot/services/appointment_reminder_service.py:160-181 | the scan only appends future pending reminders and counts at most one per consultation |
| Reminders.ScanLeavesPendingReminders | care_whatsapp_bot/services/appointment_reminder_service.py:160-181 | after the scan, every consultation it saw with a phone and an appointment more than two hours away has a pending reminder |
| Reminders.PendingKept | care_whatsapp_bot/services/appointment_reminder_service.py:167-172 | an existing pending reminder stays found when more are added |
| Reminders.CountsConsultationWithoutReminders | care_whatsapp_bot/services/appointment_reminder_service.py:174-177 | a consultation too close for any reminder is still counted as scheduled, with nothing stored |
| Reminders.AppointmentReminderService.constructor | care_whatsapp_bot/services/appointment_reminder_service.py:19-21 | reminders one day and two hours before |
| Reminders.AppointmentReminderService.CreateReminderNotification | care_whatsapp_bot/services/appointment_reminder_service.py:71-137 | stores and returns the reminder row with the given text, or returns None and stores nothing when the database fails |
| Reminders.AppointmentReminderService.ScheduleOffsets | care_whatsapp_bot/services/appointment_reminder_service.py:43-66 | the offset loop stores exactly the future reminders for its offsets, in offset order |
| Reminders.AppointmentReminderService.ScheduleRemindersForConsultation | care_whatsapp_bot/services/appointment_reminder_service.py:23-69 | stores exactly the planned reminders |
| Reminders.AppointmentReminderService.ScheduleRemindersForUpcomingConsultations | care_whatsapp_bot/services/appointment_reminder_service.py:139-192 | the scan of the upcoming consultations, with its totals; an error and no change when the database fails |
| Models.WhatsAppMessage.constructor | care_whatsapp_bot/models/whatsapp.py:30 | a new message is pending, without id, error or tracking times |
| Models.WhatsAppMessage.MarkSent | care_whatsapp_bot/models/whatsapp.py:59-65 | status sent with its time; the provider id replaced only when given; nothing else changes |
| Models.WhatsAppMessage.MarkDelivered | care_whatsapp_bot/models/whatsapp.py:67-71 | status delivered with its time; nothing else changes |
| Models.WhatsAppMessage.MarkRead | care_whatsapp_bot/models/whatsapp.py:73-77 | status read with its time; nothing else changes |
| Models.WhatsAppMessage.MarkFailed | care_whatsapp_bot/models/whatsapp.py:79-84 | status failed; the error replaced only when given; no timestamps change |
| Models.AvailableVariables | care_whatsapp_bot/models/whatsapp.py:124-126 | the template's variable names, one per variable, in order |
| Models.IsNotificationEnabled | care_whatsapp_bot/models/whatsapp.py:157-164 | on without a row; otherwise on exactly when the row is enabled and its value is "true" in any case |
| Models.DisabledRowWins | care_whatsapp_bot/models/whatsapp.py:157-164 | a disabled row switches the kind off whatever its value |
| Models.TrueInAnyCase | care_whatsapp_bot/models/whatsapp.py:157-164 | "TRUE" and "True" switch the kind on |
| Models.WhatsAppInboundMessage.constructor | care_whatsapp_bot/models/whatsapp.py:166-181 | an inbound message starts unprocessed and unanswered |
| Models.WhatsAppInboundMessage.MarkProcessed | care_whatsapp_bot/models/whatsapp.py:193-197 | processed, with its time; the reply flag unchanged |
| Serializer.ValidatePhoneNumber | care_whatsapp_bot/api/serializers/whatsapp.py:72-78 | the value unchanged exactly when it matches the pattern, else "Invalid phone number format" |
| Serializer.AcceptedNumbers | care_whatsapp_bot/api/serializers/whatsapp.py:74-77 | without a final newline: accepted exactly when an optional '+' is followed by 2 to 15 digits, the first not 0 |
| Serializer.AcceptedWithinE164 | care_whatsapp_bot/api/serializers/whatsapp.py:74-77 | an accepted number has 2 to 15 digits and fits the field's 20 characters |
| Serializer.NonDigitBlocksMatch | care_whatsapp_bot/api/serializers/whatsapp.py:74-77 | any character other than a digit or the leading '+' prevents a match |
| Serializer.RejectsSeparatorsAndLetters | care_whatsapp_bot/api/serializers/whatsapp.py:74-77 | a space, a hyphen or an ASCII letter anywhere makes the number invalid |
| Serializer.RejectsLeadingZero | care_whatsapp_bot/api/serializers/whatsapp.py:74-77 | a leading 0, with or without '+', is rejected |
| Serializer.TrailingNewlineAccepted | care_whatsapp_bot/api/serializers/whatsapp.py:74-77 | a valid number followed by a newline is also accepted, as `$` allows |
| Serializer.WebhookMessageType | care_whatsapp_bot/api/serializers/whatsapp.py:66-70 | the message type defaults to "text" |
| PluginSettingsModel.UserSettings | care_whatsapp_bot/settings.py:67-73 | the plugin's entry of PLUGIN_CONFIGS, or {} when there is no such setting or entry |
| PluginSettingsModel.Resolve | care_whatsapp_bot/settings.py:52-65 | the user's value wins, then the environment's, then the default |
| PluginSettingsModel.FirstFailure | care_whatsapp_bot/settings.py:75-87 | all set exactly when every required name is known and truthy; otherwise the first failure names a required setting that is falsy, with the ImproperlyConfigured message, or unknown |
| PluginSettingsModel.ShippedDefaultsNeedCredentials | care_whatsapp_bot/settings.py:100-150 | with the shipped defaults and nothing configured, validation fails on an empty credential |
| PluginSettingsModel.SuppliedCredentialsPass | care_whatsapp_bot/settings.py:75-87 | supplying the three credentials makes validation pass (the defaults and required names are at lines 100-150) |
| PluginSettingsModel.PluginSettings.constructor | care_whatsapp_bot/settings.py:28-42 | keeps the name, defaults, required list and environment, with empty caches |
| PluginSettingsModel.PluginSettings.ReadUserSettings | care_whatsapp_bot/settings.py:67-73 | reads the user settings once and caches them |
| PluginSettingsModel.PluginSettings.Get | care_whatsapp_bot/settings.py:44-65 | a cached name returns its cached value; an unknown name is an error with no change; otherwise the resolved value, now cached |
| PluginSettingsModel.PluginSettings.Validate | care_whatsapp_bot/settings.py:75-87 | the loop finds exactly the first failure, or all set |
| PluginSettingsModel.PluginSettings.Reload | care_whatsapp_bot/settings.py:89-97 | every cached value and the user settings are forgotten |
| PluginSettingsModel.PluginSettings.ReloadPluginSettings | care_whatsapp_bot/settings.py:157-161 | reloads only when PLUGIN_CONFIGS changes |
| PluginSettingsModel.NewPluginSettings | care_whatsapp_bot/settings.py:28-42 | no plugin name is an error; otherwise the settings are built and validated, and a failing validation is reported (the module-level instance is built at lines 152-154) |

## Left out

- HTTP, SMS and database I/O. A `requests` call becomes a `Request` value plus a
  success flag or fetched body passed in. `send_sms` becomes a success flag. ORM
  queries become tables that either hold rows or raise.
- HMAC-SHA256 (RFC 2104 section 2 over SHA-256 of FIPS 180-4) is a function parameter
  `hmacHex`, and `hmac.compare_digest` is plain equality; the timing behaviour of the
  comparison is not modelled.
- `random.randint(100000, 999999)` is a parameter constrained to that range.
- Clocks: `timezone.now()` and `time.time()` are an integer `now` in seconds;
  `time.sleep` is recorded as the list of waits. `strftime`, `isoformat` and
  `datetime.fromisoformat` output is carried as opaque text on the records, and
  `format_date` is not part of this model.
- Floats: the backoff delays are whole seconds, and the metrics success rate is
  kept as the pair (successes, sent) instead of a floating-point percentage.
- Python text operations are ASCII: `str.lower`, `str.isdigit` and regex `\d` are
  modelled for ASCII letters and digits only; `strip` uses Python's ASCII whitespace.
- Logging calls, which have no behavioural effect.
- Concurrency: the shared cache and concurrent webhook deliveries; the model is one
  single-threaded store.
- Framework plumbing: Celery tasks, Django signals, views, URLs, admin, management
  commands, migrations and the notification service are not part of this model.
- `UserType`, `UserType.HOSPITAL_STAFF`, `CommandType.GET_RECORDS` and the other names
  the handlers use do not resolve in the repository; they are closed datatypes
  holding exactly the names the handlers use.
- `staff_handler.py` has indentation errors (lines 77-82, 125-127, 137-138) and would
  not parse as written; the model follows the evident intended control flow.
- `tests.py` disagrees with the code: it expects "+1234567890" from phone
  normalisation and a dict from `generate_otp` under a "whatsapp_otp:" key. The model
  follows the code: digits with a 91 prefix, a string result, and "whatsapp_bot:otp:".
- Phone normalisation is not idempotent in general: a nine-digit number with a
  leading 0 normalises differently a second time. Idempotence is proved only for
  ten-digit inputs, and the counterexample is proved as well.
- PluginSettingsModel: `perform_import`/`import_strings` and the type casting of the
  environment reader are not modelled; environment values are taken as already typed
  JSON values. Python iterates the required settings as a set in an unspecified
  order, so the model takes that order as a `seq` parameter.
- PluginSettingsModel.PluginSettings.Get: Python's attribute lookup finds a cached
  value before `__getattr__` runs; the model states that order explicitly instead of
  modelling attribute resolution.
- ErrorHandler.WhatsAppMonitor.GetMetricsSummary: the source never fills in
  `messages_received` or `top_commands`, and the model keeps them at 0 and {}.
- ErrorHandler.WhatsAppErrorHandler: the cache's 24-hour expiry of the error lists
  (`monitoring/error_handler.py` line 199) is not modelled; lists are kept until
  overwritten.
- ErrorHandler.WhatsAppMonitor: the 7-day expiry of the counters (line 326) is not
  modelled; counters are kept until overwritten.
- StaffHandler.CommandReply: dispatches on the corrected `ExtractSearchQuery` and
  `ExtractPatientId`, not on the source's slice of the unstripped text. The two agree
  on a message without leading whitespace (`ExtractSearchKeyword`,
  `ExtractPatientIdKeyword`); with leading whitespace the source searches for a
  different string, as the Findings table shows.
- StaffHandler.HandleCommand: likewise dispatches on the corrected extractors, not on
  the source's slice of the unstripped text.
- DataFormatter.ListMessage: truncates with the corrected `Truncate`. The source's
  truncation agrees on messages of at most 4096 characters, but can return up to 4130
  characters for longer ones (Findings), so the 4096 bound is the intended one.
- DataFormatter.FormatList: uses the corrected truncation, as `ListMessage` does.
- DataFormatter.FormatMedicationList: uses the corrected truncation, as `ListMessage` does.
- DataFormatter.FormatAppointmentList: uses the corrected truncation, as `ListMessage` does.
- DataFormatter.FormatMedicalRecords: uses the corrected truncation, as `ListMessage` does.
- DataFormatter.FormatSearchResults: uses the corrected truncation, as `ListMessage` does.
- DataFormatter.FormatPatientSummary: uses the corrected truncation; as written, a
  summary over 4096 characters can come back with up to 4130.
- WhatsApp.WhatsAppProvider.ParseIncomingMessage: a sender, timestamp or text body
  that is not a string makes the model return None (`NotText`). The source's
  `IMMessage` dataclass checks no types, so it returns a message carrying that value;
  the model's message holds strings only.
- Json numbers are integers (`JNum`): a location message's float latitude and
  longitude, and any other float in a payload, are not represented.
- PrivacyFilter.EncounterTypeDisplay: `encounterClass` None stands for an absent
  attribute (read as outpatient); an `encounter_class` attribute present but holding
  None, which the source maps to "Medical Visit", is not represented.
- PrivacyFilter.EncounterView: the encounter's `status` is None only for an absent
  attribute (shown as 'Unknown'); a status column holding NULL, which the source
  passes on as None, is not represented.
- PrivacyFilter.MedicationView: `medicationName` None stands for an absent attribute
  ('Prescribed medication'); an attribute present but holding None, which the source
  passes on as None, is not represented.
- PrivacyFilter.AppointmentView: `consultationType` None stands for an absent attribute
  ('General Consultation'); an attribute present but holding None, which the source
  passes on as None, is not represented.
- Records.StampAt: a NULL `created_date` sorts as the oldest row; the database's own
  placement of NULLs in `order_by('-created_date')` is not modelled.
- PyJson.Show: `str()` of a list or a dict is rendered as "[...]" or "{...}", not with
  its contents.
- Serializer.ValidatePhoneNumber: the field's own whitespace trimming before the
  validator runs is not modelled, so the trailing-newline case is stated for the
  validator alone.
- Reminders.AppointmentReminderService.CreateReminderNotification: takes the reminder
  text from its caller, which builds it once per kind with `ReminderMessage`; the text
  depends only on the consultation and the kind, so the stored rows are the same.
- Reminders.NotificationFor: the message text is built with the appointment's
  `strftime` date and time as opaque strings. The contract ties the message to
  `ReminderMessage`, whose contract states its greeting, sign-off, doctor, facility,
  date, time and hours, but not the fixed sentences between them.

## Findings

| source | as written | input that shows it | evidently intended | confidence | as-written member | corrected member |
|---|---|---|---|---|---|---|
| care_whatsapp_bot/utils/data_formatter.py:256-267 | a long message keeps up to 4046 characters and then appends an 84-character suffix | a 5000-character message without spaces comes out with 4130 characters | a truncated message never exceeds the 4096-character WhatsApp limit | not executed | DataFormatter.TruncateAsWrittenCounterexample | DataFormatter.Truncate |
| care_whatsapp_bot/handlers/staff_handler.py:51-67 | the keyword test uses the stripped, lowered text but the slice is taken from the unstripped original | "  search patient Bob" gives the query "t Bob" | the argument after the keyword, whatever whitespace surrounds the message | not executed | StaffHandler.SearchQueryPaddingCounterexample | StaffHandler.ExtractIgnoresPadding |
