/**
 * The staff handler: patient search, a patient summary and the scheduling
 * redirect for a signed-in hospital staff user, each answered with exactly one
 * TEXT message. The command's argument is cut out of the message text by two
 * extractors; `today` is the date ages are computed against.
 */
module StaffHandler {
  import opened Wrappers
  import opened PyJson
  import opened IMBase
  import opened Commands
  import opened Records
  import Text
  import PrivacyFilter

  const SEARCH_PROMPT: string := "\U{2753} Please provide a search term (minimum 2 characters).\nExample: `search patient John Doe`"
  const SEARCH_FOOTER: string := "\n\U{1F4A1} Use `patient info <ID>` for details."
  const INFO_PROMPT: string := "\U{2753} Please provide a patient ID.\nExample: `patient info P123456`"
  const NO_ACCESS_TEXT: string := "\U{1F512} You don't have permission to access this patient's information."
  const INFO_HEADER: string := "\U{1F464} *Patient Information*\n\n"
  const ENCOUNTERS_HEADER: string := "\n\U{1F4CB} *Recent Encounters:*\n"
  const INFO_FOOTER: string := "\n\U{26A0}\U{FE0F} Summary only. Use CARE system for complete records."
  const SCHEDULE_TEXT: string := "\U{1F4C5} *Schedule Appointment*\n\nUse the main CARE system:\n\n\U{1F5A5}\U{FE0F} Web Portal or \U{1F4F1} Mobile App\n\n\U{1F512} Full authentication required for security."
  const UNKNOWN_COMMAND_TEXT: string := "\U{2753} I didn't understand that command. Commands: `search patient <name>`, `patient info <id>`, `schedule appointment`, `menu`, `help`"
  const GENERIC_ERROR_TEXT: string := "Sorry, something went wrong while processing your request. Try again or contact IT support."

  const STAFF_NOT_FOUND: string := "Staff user not found."
  const STAFF_INFO_MISSING: string := "Staff information not found."

  const SEARCH_LIMIT: nat := 10
  const ENCOUNTERS_LIMIT: nat := 3

  const STAFF_COMMANDS: set<Command> := {PATIENT_SEARCH, PATIENT_INFO, SCHEDULE_APPOINTMENT}

  // ---------------------------------------------------------------------------
  // Responses shared by every command

  /** `_create_error_response(phone, custom_message)`: "❌ " and the message, or the generic text. */
  function ErrorText(custom: Option<string>): (r: string)
    ensures custom.Some? && custom.value != "" ==> r == "\U{274C} " + custom.value
    ensures custom.None? || custom.value == "" ==> r == GENERIC_ERROR_TEXT
  {
    if custom.Some? && custom.value != "" then "\U{274C} " + custom.value else GENERIC_ERROR_TEXT
  }

  /** `_create_unknown_command_response` */
  function UnknownCommandResponse(phone: string): (r: IMResponse)
    ensures r == TextTo(phone, UNKNOWN_COMMAND_TEXT)
  {
    NewIMResponse(phone, TEXT, UNKNOWN_COMMAND_TEXT, None)
  }

  /** `User.objects.get(id=user_id)` */
  function StaffLookup(db: Db, userId: int): Got<StaffUser> {
    GetWhere(db.users, (u: StaffUser) => u.id == userId)
  }

  // ---------------------------------------------------------------------------
  // Extracting the command's argument

  const SEARCH_KEY: string := "search patient "
  const SEARCH_SHORT_KEY: string := "/search "
  const INFO_KEY: string := "patient info "
  const INFO_SHORT_KEY: string := "/patient "

  /**
   * The scheme both extractors follow: when `lowered` starts with `key` (or else
   * `short`), the rest of `sliced` after that many characters, stripped;
   * otherwise `fallback`. The offsets 15, 8, 13 and 9 of the code are the
   * lengths of the four keywords.
   */
  function KeywordArgument(lowered: string, sliced: string, fallback: string, key: string, short: string): (r: string)
    ensures Text.StartsWith(lowered, key) ==> r == Text.Strip(Text.Drop(sliced, |key|))
    ensures !Text.StartsWith(lowered, key) && Text.StartsWith(lowered, short) ==> r == Text.Strip(Text.Drop(sliced, |short|))
    ensures !Text.StartsWith(lowered, key) && !Text.StartsWith(lowered, short) ==> r == fallback
  {
    if Text.StartsWith(lowered, key) then Text.Strip(Text.Drop(sliced, |key|))
    else if Text.StartsWith(lowered, short) then Text.Strip(Text.Drop(sliced, |short|))
    else fallback
  }

  /**
   * `_extract_search_query` as written: the keyword is looked for in
   * `content.lower().strip()`, but `content[15:]` (or `[8:]`) slices the
   * unstripped text.
   */
  function ExtractSearchQueryAsWritten(content: string): (r: string)
    ensures Text.StartsWith(Text.Strip(Text.Lower(content)), "search patient ") ==> r == Text.Strip(Text.Drop(content, 15))
    ensures (!Text.StartsWith(Text.Strip(Text.Lower(content)), "search patient ") &&
             Text.StartsWith(Text.Strip(Text.Lower(content)), "/search ")) ==> r == Text.Strip(Text.Drop(content, 8))
    ensures (!Text.StartsWith(Text.Strip(Text.Lower(content)), "search patient ") &&
             !Text.StartsWith(Text.Strip(Text.Lower(content)), "/search ")) ==> r == Text.Strip(content)
  {
    KeywordArgument(Text.Strip(Text.Lower(content)), content, Text.Strip(content), SEARCH_KEY, SEARCH_SHORT_KEY)
  }

  /** `_extract_patient_id` as written, with "patient info " and "/patient ". */
  function ExtractPatientIdAsWritten(content: string): (r: string)
    ensures Text.StartsWith(Text.Strip(Text.Lower(content)), "patient info ") ==> r == Text.Strip(Text.Drop(content, 13))
    ensures (!Text.StartsWith(Text.Strip(Text.Lower(content)), "patient info ") &&
             Text.StartsWith(Text.Strip(Text.Lower(content)), "/patient ")) ==> r == Text.Strip(Text.Drop(content, 9))
    ensures (!Text.StartsWith(Text.Strip(Text.Lower(content)), "patient info ") &&
             !Text.StartsWith(Text.Strip(Text.Lower(content)), "/patient ")) ==> r == Text.Strip(content)
  {
    KeywordArgument(Text.Strip(Text.Lower(content)), content, Text.Strip(content), INFO_KEY, INFO_SHORT_KEY)
  }

  /**
   * The search query, sliced from the same stripped text the keyword was found
   * in; on a message without surrounding whitespace it is what the source
   * extracts.
   */
  function ExtractSearchQuery(content: string): (r: string)
    ensures Text.StartsWith(Text.Strip(Text.Lower(content)), "search patient ") ==>
            r == Text.Strip(Text.Drop(Text.Strip(content), 15))
    ensures Text.Strip(content) == content ==> r == ExtractSearchQueryAsWritten(content)
  {
    KeywordArgument(Text.Strip(Text.Lower(content)), Text.Strip(content), Text.Strip(content), SEARCH_KEY, SEARCH_SHORT_KEY)
  }

  /** The patient id, sliced from the stripped text; without surrounding whitespace, what the source extracts. */
  function ExtractPatientId(content: string): (r: string)
    ensures Text.StartsWith(Text.Strip(Text.Lower(content)), "patient info ") ==>
            r == Text.Strip(Text.Drop(Text.Strip(content), 13))
    ensures Text.Strip(content) == content ==> r == ExtractPatientIdAsWritten(content)
  {
    KeywordArgument(Text.Strip(Text.Lower(content)), Text.Strip(content), Text.Strip(content), INFO_KEY, INFO_SHORT_KEY)
  }

  /** Padding the text with whitespace changes neither the text the keyword is looked for in nor the stripped text. */
  lemma PaddingKeepsStrippedForms(pre: string, c: string, post: string)
    requires Text.AllSpace(pre) && Text.AllSpace(post)
    ensures Text.Strip(Text.Lower(pre + c + post)) == Text.Strip(Text.Lower(c))
    ensures Text.Strip(pre + c + post) == Text.Strip(c)
  {
    Text.StripPadded(pre, c, post);
    Text.LowerConcat(pre + c, post);
    Text.LowerConcat(pre, c);
    Text.LowerSpace(pre);
    Text.LowerSpace(post);
    assert Text.AllSpace(Text.Lower(pre)) && Text.AllSpace(Text.Lower(post));
    assert Text.Lower(pre + c + post) == Text.Lower(pre) + Text.Lower(c) + Text.Lower(post);
    Text.StripPadded(Text.Lower(pre), Text.Lower(c), Text.Lower(post));
  }

  /** Whitespace around the message does not change the corrected extractors' result. */
  lemma ExtractIgnoresPadding(pre: string, c: string, post: string)
    requires Text.AllSpace(pre) && Text.AllSpace(post)
    ensures ExtractSearchQuery(pre + c + post) == ExtractSearchQuery(c)
    ensures ExtractPatientId(pre + c + post) == ExtractPatientId(c)
  {
    PaddingKeepsStrippedForms(pre, c, post);
  }

  /** Keywords that cannot both match: they start with different, non-blank characters. */
  predicate DistinctKeys(key: string, short: string) {
    key != [] && short != [] && key[0] != short[0] && !Text.IsSpace(key[0]) && !Text.IsSpace(short[0])
  }

  /**
   * A keyword `p` (in any letter case) followed by a non-blank argument: the
   * argument, stripped, is what is extracted, whether the slice is taken from
   * the stripped text or from the text itself.
   */
  lemma {:induction false} KeywordFollowedBy(p: string, key: string, short: string, rest: string)
    requires DistinctKeys(key, short) && Text.Lower(p) in {key, short} && Text.Strip(rest) != []
    ensures KeywordArgument(Text.Strip(Text.Lower(p + rest)), Text.Strip(p + rest), Text.Strip(p + rest), key, short) ==
            Text.Strip(rest)
    ensures KeywordArgument(Text.Strip(Text.Lower(p + rest)), p + rest, Text.Strip(p + rest), key, short) == Text.Strip(rest)
  {
    var k := Text.Lower(p);
    Text.StripKeyword(p, k, rest);
    Text.StripLower(p + rest);
    var lowered := Text.Strip(Text.Lower(p + rest));
    assert Text.StartsWith(lowered, k);
    if k == short {
      assert lowered[0] == short[0];
      assert !Text.StartsWith(lowered, key);
    }
    assert |k| == |p|;
    DropKeyword(Text.Strip(p + rest), p);
    assert Text.Drop(p + rest, |p|) == rest;
  }

  /** Dropping a prefix's length drops exactly that prefix. */
  lemma DropKeyword(t: string, p: string)
    requires |p| <= |t| && t[..|p|] == p
    ensures Text.Drop(t, |p|) == t[|p|..] && t == p + t[|p|..]
  {
  }

  /** Cutting `|p|` characters off `pre + p + rest` leaves the last `|pre|` characters of `p` in front. */
  lemma DropPaddedKeyword(pre: string, p: string, rest: string)
    requires |pre| <= |p|
    ensures Text.Drop(pre + p + rest, |p|) == p[|p| - |pre|..] + rest
  {
    var t := pre + p + rest;
    assert |t| == |pre| + |p| + |rest|;
    var u := p[|p| - |pre|..] + rest;
    forall j | |p| <= j < |t|
      ensures t[j] == u[j - |p|]
    {
      if j < |p| + |pre| {
        assert t[j] == p[j - |pre|];
      } else {
        assert t[j] == rest[j - |pre| - |p|];
      }
    }
    assert t[|p|..] == u;
  }

  lemma SearchKeysDistinct()
    ensures DistinctKeys(SEARCH_KEY, SEARCH_SHORT_KEY) && DistinctKeys(INFO_KEY, INFO_SHORT_KEY)
  {
  }

  /** "search patient <q>" or "/search <q>", in any letter case: the query is `q` stripped. */
  lemma ExtractSearchKeyword(p: string, rest: string)
    requires Text.Lower(p) in {SEARCH_KEY, SEARCH_SHORT_KEY} && Text.Strip(rest) != []
    ensures ExtractSearchQuery(p + rest) == Text.Strip(rest)
    ensures ExtractSearchQueryAsWritten(p + rest) == Text.Strip(rest)
  {
    SearchKeysDistinct();
    KeywordFollowedBy(p, SEARCH_KEY, SEARCH_SHORT_KEY, rest);
  }

  /** "patient info <id>" or "/patient <id>", in any letter case: the id is `id` stripped. */
  lemma ExtractPatientIdKeyword(p: string, rest: string)
    requires Text.Lower(p) in {INFO_KEY, INFO_SHORT_KEY} && Text.Strip(rest) != []
    ensures ExtractPatientId(p + rest) == Text.Strip(rest)
    ensures ExtractPatientIdAsWritten(p + rest) == Text.Strip(rest)
  {
    SearchKeysDistinct();
    KeywordFollowedBy(p, INFO_KEY, INFO_SHORT_KEY, rest);
  }

  /**
   * Leading whitespace before the keyword: the code as written slices that many
   * characters too early and keeps the keyword's last |pre| characters in the
   * argument; the corrected extractor does not.
   */
  lemma {:induction false} KeywordAfterPadding(pre: string, p: string, key: string, short: string, rest: string)
    requires DistinctKeys(key, short) && Text.Lower(p) == key && Text.Strip(rest) != []
    requires Text.AllSpace(pre) && |pre| <= |p|
    ensures KeywordArgument(Text.Strip(Text.Lower(pre + p + rest)), pre + p + rest, Text.Strip(pre + p + rest), key, short) ==
            Text.Strip(p[|p| - |pre|..] + rest)
    ensures KeywordArgument(Text.Strip(Text.Lower(pre + p + rest)), Text.Strip(pre + p + rest), Text.Strip(pre + p + rest), key, short) ==
            Text.Strip(rest)
  {
    PaddedKeyword(pre, p, key, rest);
    KeywordFollowedBy(p, key, short, rest);
  }

  /** What padding before a keyword does to the three texts the extractors look at. */
  lemma PaddedKeyword(pre: string, p: string, key: string, rest: string)
    requires Text.Lower(p) == key && key != [] && !Text.IsSpace(key[0]) && Text.Strip(rest) != []
    requires Text.AllSpace(pre) && |pre| <= |p|
    ensures Text.Strip(Text.Lower(pre + p + rest)) == Text.Strip(Text.Lower(p + rest))
    ensures Text.Strip(pre + p + rest) == Text.Strip(p + rest)
    ensures Text.StartsWith(Text.Strip(Text.Lower(pre + p + rest)), key)
    ensures Text.Drop(pre + p + rest, |key|) == p[|p| - |pre|..] + rest
  {
    assert Text.Strip(Text.Lower(pre + p + rest)) == Text.Strip(Text.Lower(p + rest)) &&
           Text.Strip(pre + p + rest) == Text.Strip(p + rest) by {
      assert pre + (p + rest) + "" == pre + p + rest;
      PaddingKeepsStrippedForms(pre, p + rest, "");
    }
    assert Text.StartsWith(Text.Strip(Text.Lower(p + rest)), key) by {
      Text.StripKeyword(p, key, rest);
      Text.StripLower(p + rest);
    }
    assert |key| == |p|;
    DropPaddedKeyword(pre, p, rest);
  }

  // The concrete input below, one literal fact at a time.

  lemma StripsOfBob()
    ensures Text.Strip("Bob") == "Bob"
  {
    Text.StripUnpadded("Bob");
  }

  lemma StripsOfShiftedBob()
    ensures Text.Strip("t Bob") == "t Bob"
  {
    Text.StripUnpadded("t Bob");
  }

  lemma TwoSpaces()
    ensures Text.AllSpace("  ")
  {
  }

  lemma SearchKeyPieces()
    ensures Text.Lower(SEARCH_KEY) == SEARCH_KEY
    ensures "  " + SEARCH_KEY + "Bob" == "  search patient Bob" && SEARCH_KEY[13..] + "Bob" == "t Bob"
  {
  }

  /** The input that shows it: two leading spaces leave "t " of the keyword in front of the query. */
  lemma SearchQueryPaddingCounterexample()
    ensures ExtractSearchQueryAsWritten("  search patient Bob") == "t Bob"
    ensures ExtractSearchQuery("  search patient Bob") == "Bob"
  {
    var input := "  " + SEARCH_KEY + "Bob";
    assert ExtractSearchQueryAsWritten(input) == Text.Strip(SEARCH_KEY[13..] + "Bob") &&
           ExtractSearchQuery(input) == Text.Strip("Bob") by {
      StripsOfBob();
      TwoSpaces();
      SearchKeyPieces();
      SearchKeysDistinct();
      KeywordAfterPadding("  ", SEARCH_KEY, SEARCH_KEY, SEARCH_SHORT_KEY, "Bob");
    }
    StripsOfBob();
    StripsOfShiftedBob();
    SearchKeyPieces();
  }

  // ---------------------------------------------------------------------------
  // Patient search

  /** `name__icontains | phone_number__icontains | external_id__icontains` */
  predicate MatchesQuery(p: Patient, query: string) {
    IContains(Some(p.name), query) || IContains(p.phone, query) || IContains(Some(p.externalId), query)
  }

  /** `Patient.objects.filter(...)[:10]`: the first ten matches in table order. */
  function MatchingPatients(rows: seq<Patient>, query: string): (r: seq<Patient>)
    ensures |r| <= SEARCH_LIMIT
    ensures forall i :: 0 <= i < |r| ==> r[i] in rows && MatchesQuery(r[i], query)
    ensures |r| < SEARCH_LIMIT ==> forall p :: p in rows && MatchesQuery(p, query) ==> p in r
  {
    FirstMatching(rows, (p: Patient) => MatchesQuery(p, query), SEARCH_LIMIT)
  }

  function NoMatchesText(query: string): string {
    "\U{1F50D} No patients found matching '" + query + "'.\nTry searching with a different term."
  }

  function SearchHeader(query: string): string {
    "\U{1F50D} *Search Results for '" + query + "'*\n\n"
  }

  /** One search result, from the staff view of the patient. */
  function SearchEntry(today: Date, i: nat, p: Patient): string {
    var v := PrivacyFilter.StaffPatientView(PrivacyFilter.Fetched(p), today);
    PrivacyFilter.EntryTitle(i, PrivacyFilter.Field(v, "name")) + "ID: " + PrivacyFilter.Field(v, "patient_id") + "\n" +
    PrivacyFilter.OptionalLine("Age: ", v, "age") + PrivacyFilter.OptionalLine("Gender: ", v, "gender") +
    PrivacyFilter.OptionalLine("Phone: ", v, "phone_masked") + "\n"
  }

  function SearchEntries(today: Date): (nat, Patient) -> string {
    (i: nat, p: Patient) => SearchEntry(today, i, p)
  }

  /** The age line when the patient has an age, the gender line when it is set. */
  function AgeGenderLines(p: Patient, today: Date, ageCaption: string, genderCaption: string): string {
    var age := PrivacyFilter.CalculateAge(p, today);
    (if age.Some? && age.value != "" then ageCaption + age.value + "\n" else "") +
    (if p.gender != "" then genderCaption + p.gender + "\n" else "")
  }

  /** A result shows name, id, age, gender and always the masked phone, never the stored number. */
  lemma SearchEntryShowsMaskedPhone(today: Date, i: nat, p: Patient)
    ensures SearchEntry(today, i, p) ==
            PrivacyFilter.EntryTitle(i, p.name) + "ID: " + p.externalId + "\n" +
            AgeGenderLines(p, today, "Age: ", "Gender: ") + ("Phone: " + PrivacyFilter.MaskPhone(p.phone) + "\n") + "\n"
  {
    StaffViewLines(p, today, "Age: ", "Gender: ", "Blood Group: ", "Phone: ");
    var v := PrivacyFilter.StaffPatientView(PrivacyFilter.Fetched(p), today);
    var head := PrivacyFilter.EntryTitle(i, PrivacyFilter.Field(v, "name")) + "ID: " + PrivacyFilter.Field(v, "patient_id") + "\n";
    Text.AppendAssoc(head, PrivacyFilter.OptionalLine("Age: ", v, "age"), PrivacyFilter.OptionalLine("Gender: ", v, "gender"));
  }

  /** The text `_handle_patient_search` answers with. */
  function SearchReply(db: Db, userId: int, query: string, today: Date): (r: string)
    ensures |query| < 2 ==> r == SEARCH_PROMPT
    ensures |query| >= 2 && StaffLookup(db, userId) == DoesNotExist ==> r == "\U{274C} " + STAFF_NOT_FOUND
    ensures |query| >= 2 && StaffLookup(db, userId) == QueryFailed ==> r == GENERIC_ERROR_TEXT
    ensures |query| >= 2 && StaffLookup(db, userId).Found? && db.patients.Down? ==> r == GENERIC_ERROR_TEXT
    ensures |query| >= 2 && StaffLookup(db, userId).Found? && db.patients.Rows? ==>
            var found := MatchingPatients(db.patients.rows, query);
            (found == [] ==> r == NoMatchesText(query)) &&
            (found != [] ==> Text.StartsWith(r, SearchHeader(query)) && Text.EndsWith(r, SEARCH_FOOTER))
  {
    if |query| < 2 then SEARCH_PROMPT
    else
      match StaffLookup(db, userId)
      case DoesNotExist => ErrorText(Some(STAFF_NOT_FOUND))
      case QueryFailed => ErrorText(None)
      case Found(_) =>
        match db.patients
        case Down => ErrorText(None)
        case Rows(rows) =>
          var found := MatchingPatients(rows, query);
          if found == [] then NoMatchesText(query)
          else Text.Listing(SearchHeader(query), found, SearchEntries(today), SEARCH_FOOTER)
  }

  /** The j-th match is result j + 1 of the search message. */
  lemma SearchListsMatch(db: Db, userId: int, query: string, today: Date, j: nat)
    requires |query| >= 2 && StaffLookup(db, userId).Found? && db.patients.Rows?
    requires j < |MatchingPatients(db.patients.rows, query)|
    ensures var found := MatchingPatients(db.patients.rows, query);
            SearchReply(db, userId, query, today) ==
            SearchHeader(query) + (Text.Joined(found[..j], 1, SearchEntries(today)) + SearchEntry(today, j + 1, found[j]) +
                                   Text.Joined(found[j + 1..], j + 2, SearchEntries(today))) + SEARCH_FOOTER
  {
    var found := MatchingPatients(db.patients.rows, query);
    Text.ListingShowsItem(SearchHeader(query), found, SearchEntries(today), SEARCH_FOOTER, j);
  }

  /** `_handle_patient_search` */
  method HandlePatientSearch(phone: string, userId: int, query: string, db: Db, today: Date) returns (r: seq<IMResponse>)
    ensures r == [TextTo(phone, SearchReply(db, userId, query, today))]
  {
    if query == "" || |query| < 2 {
      return [TextTo(phone, SEARCH_PROMPT)];
    }
    var staff := StaffLookup(db, userId);
    if staff == DoesNotExist {
      return [TextTo(phone, ErrorText(Some(STAFF_NOT_FOUND)))];
    }
    if staff.QueryFailed? || db.patients.Down? {
      return [TextTo(phone, ErrorText(None))];
    }
    var patients := MatchingPatients(db.patients.rows, query);
    if patients == [] {
      return [TextTo(phone, NoMatchesText(query))];
    }
    var text := SearchHeader(query);
    var entries := Text.Enumerate(patients, SearchEntries(today));
    text := text + entries;
    text := text + SEARCH_FOOTER;
    r := [TextTo(phone, text)];
  }

  // ---------------------------------------------------------------------------
  // Patient info

  /** `_check_patient_access`: an active staff user may read any patient. */
  function CheckPatientAccess(staff: StaffUser, p: Patient): (r: bool)
    ensures r <==> staff.isActive
  {
    staff.isActive
  }

  function PatientNotFoundText(patientId: string): string {
    "\U{274C} Patient with ID '" + patientId + "' not found."
  }

  /** `Encounter.objects.filter(patient=patient).order_by('-created_date')[:3]` */
  function RecentEncounters(rows: seq<Encounter>, p: Patient): (r: seq<Encounter>)
    ensures |r| <= ENCOUNTERS_LIMIT
    ensures forall i :: 0 <= i < |r| ==> r[i] in rows && r[i].patientId == p.externalId
    ensures forall i, j :: 0 <= i < j < |r| ==> StampAt(r[i].created) >= StampAt(r[j].created)
    ensures |r| < ENCOUNTERS_LIMIT ==> forall e :: e in rows && e.patientId == p.externalId ==> e in r
    ensures |r| == ENCOUNTERS_LIMIT ==>
              forall e :: (e in rows && e.patientId == p.externalId && e !in r) ==>
                StampAt(e.created) <= StampAt(r[ENCOUNTERS_LIMIT - 1].created)
  {
    NewestMatching(rows, (e: Encounter) => e.patientId == p.externalId, (e: Encounter) => StampAt(e.created), ENCOUNTERS_LIMIT)
  }

  /** `f"• {date} - {encounter_type}\n"` of the staff view of an encounter. */
  function EncounterLine(staff: StaffUser, i: nat, e: Encounter): string {
    var v := PrivacyFilter.StaffEncounterView(PrivacyFilter.Fetched(e), staff);
    "\U{2022} " + PrivacyFilter.Field(v, "date") + " - " + PrivacyFilter.Field(v, "encounter_type") + "\n"
  }

  function EncounterLines(staff: StaffUser): (nat, Encounter) -> string {
    (i: nat, e: Encounter) => EncounterLine(staff, i, e)
  }

  /** The name, id and optional lines of the staff view of the patient. */
  function PatientSummary(p: Patient, today: Date): string {
    var v := PrivacyFilter.StaffPatientView(PrivacyFilter.Fetched(p), today);
    INFO_HEADER + "*Name:* " + PrivacyFilter.Field(v, "name") + "\n" + "*ID:* " + PrivacyFilter.Field(v, "patient_id") + "\n" +
    (PrivacyFilter.OptionalLine("*Age:* ", v, "age") + PrivacyFilter.OptionalLine("*Gender:* ", v, "gender")) +
    PrivacyFilter.OptionalLine("*Blood Group:* ", v, "blood_group") + PrivacyFilter.OptionalLine("*Phone:* ", v, "phone_masked")
  }

  /** What the lines of the staff view of a patient show, for any captions. */
  lemma StaffViewLines(p: Patient, today: Date, ageCaption: string, genderCaption: string, bloodCaption: string,
                       phoneCaption: string)
    ensures var v := PrivacyFilter.StaffPatientView(PrivacyFilter.Fetched(p), today);
            PrivacyFilter.Field(v, "name") == p.name && PrivacyFilter.Field(v, "patient_id") == p.externalId &&
            PrivacyFilter.OptionalLine(ageCaption, v, "age") + PrivacyFilter.OptionalLine(genderCaption, v, "gender") ==
              AgeGenderLines(p, today, ageCaption, genderCaption) &&
            PrivacyFilter.OptionalLine(bloodCaption, v, "blood_group") ==
              (if p.bloodGroup != "" then bloodCaption + p.bloodGroup + "\n" else "") &&
            PrivacyFilter.OptionalLine(phoneCaption, v, "phone_masked") == phoneCaption + PrivacyFilter.MaskPhone(p.phone) + "\n"
  {
    var v := PrivacyFilter.StaffPatientView(PrivacyFilter.Fetched(p), today);
    var m := PrivacyFilter.MaskPhone(p.phone);
    assert m != "" by {
      if p.phone.Some? && |p.phone.value| > 4 { assert m[..4] == "****"; }
    }
    assert v["name"] == JStr(p.name) && v["patient_id"] == JStr(p.externalId);
    assert v["age"] == PrivacyFilter.OptText(PrivacyFilter.CalculateAge(p, today));
    assert v["gender"] == JStr(p.gender) && v["blood_group"] == JStr(p.bloodGroup);
    assert v["phone_masked"] == JStr(m);
  }

  /** The summary shows the patient's own values and the masked phone, never the stored number. */
  lemma PatientSummaryShowsMaskedPhone(p: Patient, today: Date)
    ensures PatientSummary(p, today) ==
            INFO_HEADER + "*Name:* " + p.name + "\n" + "*ID:* " + p.externalId + "\n" +
            AgeGenderLines(p, today, "*Age:* ", "*Gender:* ") +
            (if p.bloodGroup != "" then "*Blood Group:* " + p.bloodGroup + "\n" else "") +
            ("*Phone:* " + PrivacyFilter.MaskPhone(p.phone) + "\n")
  {
    StaffViewLines(p, today, "*Age:* ", "*Gender:* ", "*Blood Group:* ", "*Phone:* ");
  }

  /** The encounter section: only when there are encounters, one line each, in the order given. */
  function EncountersSection(staff: StaffUser, es: seq<Encounter>): (r: string)
    ensures es == [] ==> r == ""
    ensures es != [] ==> Text.StartsWith(r, ENCOUNTERS_HEADER)
  {
    if es == [] then "" else ENCOUNTERS_HEADER + Text.Joined(es, 1, EncounterLines(staff))
  }

  /** The summary of a patient the staff user may see: their details, recent encounters and the footer. */
  function InfoText(staff: StaffUser, p: Patient, rows: seq<Encounter>, today: Date): (r: string)
    ensures Text.StartsWith(r, PatientSummary(p, today)) && Text.EndsWith(r, INFO_FOOTER)
  {
    var summary := PatientSummary(p, today);
    var section := EncountersSection(staff, RecentEncounters(rows, p));
    Text.Framing(summary, section, INFO_FOOTER);
    summary + section + INFO_FOOTER
  }

  /** The text `_handle_patient_info` answers with. */
  function InfoReply(db: Db, userId: int, patientId: string, today: Date): (r: string)
    ensures patientId == "" ==> r == INFO_PROMPT
    ensures patientId != "" && StaffLookup(db, userId) == DoesNotExist ==> r == "\U{274C} " + STAFF_NOT_FOUND
    ensures patientId != "" && StaffLookup(db, userId) == QueryFailed ==> r == GENERIC_ERROR_TEXT
    ensures patientId != "" && StaffLookup(db, userId).Found? ==>
            var got := GetWhere(db.patients, (p: Patient) => p.externalId == patientId);
            (got == DoesNotExist ==> r == PatientNotFoundText(patientId)) &&
            (got == QueryFailed ==> r == GENERIC_ERROR_TEXT) &&
            (got.Found? && !StaffLookup(db, userId).row.isActive ==> r == NO_ACCESS_TEXT) &&
            (got.Found? && StaffLookup(db, userId).row.isActive && db.encounters.Rows? ==>
               Text.StartsWith(r, PatientSummary(got.row, today)) && Text.EndsWith(r, INFO_FOOTER))
  {
    if patientId == "" then INFO_PROMPT
    else
      match StaffLookup(db, userId)
      case DoesNotExist => ErrorText(Some(STAFF_NOT_FOUND))
      case QueryFailed => ErrorText(None)
      case Found(staff) =>
        match GetWhere(db.patients, (p: Patient) => p.externalId == patientId)
        case DoesNotExist => PatientNotFoundText(patientId)
        case QueryFailed => ErrorText(None)
        case Found(p) =>
          if !CheckPatientAccess(staff, p) then NO_ACCESS_TEXT
          else
            match db.encounters
            case Down => ErrorText(None)
            case Rows(rows) =>
              InfoText(staff, p, rows, today)
  }

  /** `_handle_patient_info` */
  method HandlePatientInfo(phone: string, userId: int, patientId: string, db: Db, today: Date) returns (r: seq<IMResponse>)
    ensures r == [TextTo(phone, InfoReply(db, userId, patientId, today))]
  {
    if patientId == "" {
      return [TextTo(phone, INFO_PROMPT)];
    }
    var staff := StaffLookup(db, userId);
    if staff == DoesNotExist {
      return [TextTo(phone, ErrorText(Some(STAFF_NOT_FOUND)))];
    }
    if staff.QueryFailed? {
      return [TextTo(phone, ErrorText(None))];
    }
    var got := GetWhere(db.patients, (p: Patient) => p.externalId == patientId);
    if got == DoesNotExist {
      return [TextTo(phone, PatientNotFoundText(patientId))];
    }
    if got.QueryFailed? {
      return [TextTo(phone, ErrorText(None))];
    }
    var patient := got.row;
    if !CheckPatientAccess(staff.row, patient) {
      return [TextTo(phone, NO_ACCESS_TEXT)];
    }
    var text := PatientSummary(patient, today);
    if db.encounters.Down? {
      return [TextTo(phone, ErrorText(None))];
    }
    var recent := RecentEncounters(db.encounters.rows, patient);
    ghost var summary := text;
    if recent != [] {
      text := text + ENCOUNTERS_HEADER;
      var lines := Text.Enumerate(recent, EncounterLines(staff.row));
      text := text + lines;
      Text.AppendAssoc(summary, ENCOUNTERS_HEADER, lines);
    } else {
      assert text + "" == text;
    }
    assert text == summary + EncountersSection(staff.row, recent);
    text := text + INFO_FOOTER;
    assert text == InfoText(staff.row, patient, db.encounters.rows, today);
    InfoReplyOfVisiblePatient(db, userId, patientId, today, staff.row, patient);
    r := [TextTo(phone, text)];
  }

  /** With a staff user who may see the patient and readable encounters, the reply is the patient's summary text. */
  lemma InfoReplyOfVisiblePatient(db: Db, userId: int, patientId: string, today: Date, staff: StaffUser, p: Patient)
    requires patientId != "" && StaffLookup(db, userId) == Found(staff)
    requires GetWhere(db.patients, (q: Patient) => q.externalId == patientId) == Found(p)
    requires CheckPatientAccess(staff, p) && db.encounters.Rows?
    ensures InfoReply(db, userId, patientId, today) == InfoText(staff, p, db.encounters.rows, today)
  {
  }

  // ---------------------------------------------------------------------------
  // Dispatch

  /**
   * The text `handle_command` answers with. A missing context (`None.get`) is the
   * generic error; a context without a user id stops before any dispatch.
   */
  function CommandReply(command: Command, content: string, context: Option<UserContext>, db: Db, today: Date): (r: string)
    ensures context.None? ==> r == GENERIC_ERROR_TEXT
    ensures context.Some? && context.value.UserId().None? ==> r == "\U{274C} " + STAFF_INFO_MISSING
    ensures context.Some? && context.value.UserId().Some? ==>
            (command == PATIENT_SEARCH ==> r == SearchReply(db, context.value.UserId().value, ExtractSearchQuery(content), today)) &&
            (command == PATIENT_INFO ==> r == InfoReply(db, context.value.UserId().value, ExtractPatientId(content), today)) &&
            (command == SCHEDULE_APPOINTMENT ==> r == SCHEDULE_TEXT) &&
            (command !in STAFF_COMMANDS ==> r == UNKNOWN_COMMAND_TEXT)
  {
    if context.None? then ErrorText(None)
    else
      match context.value.UserId()
      case None => ErrorText(Some(STAFF_INFO_MISSING))
      case Some(uid) =>
        match command
        case PATIENT_SEARCH => SearchReply(db, uid, ExtractSearchQuery(content), today)
        case PATIENT_INFO => InfoReply(db, uid, ExtractPatientId(content), today)
        case SCHEDULE_APPOINTMENT => SCHEDULE_TEXT
        case _ => UNKNOWN_COMMAND_TEXT
  }

  /** `handle_command`: every path answers the sender with exactly one TEXT response. */
  method HandleCommand(command: Command, message: IMMessage, context: Option<UserContext>, db: Db, today: Date)
    returns (r: seq<IMResponse>)
    ensures SingleTextReply(r, message.senderId)
    ensures r == [TextTo(message.senderId, CommandReply(command, message.content, context, db, today))]
  {
    var phone := message.senderId;
    if context.None? {
      return [TextTo(phone, ErrorText(None))];
    }
    var uid := context.value.UserId();
    if uid.None? {
      return [TextTo(phone, ErrorText(Some(STAFF_INFO_MISSING)))];
    }
    var userId := uid.value;
    match command {
      case PATIENT_SEARCH =>
        var query := ExtractSearchQuery(message.content);
        r := HandlePatientSearch(phone, userId, query, db, today);
        assert CommandReply(command, message.content, context, db, today) == SearchReply(db, userId, query, today);
      case PATIENT_INFO =>
        var patientId := ExtractPatientId(message.content);
        r := HandlePatientInfo(phone, userId, patientId, db, today);
        assert CommandReply(command, message.content, context, db, today) == InfoReply(db, userId, patientId, today);
      case SCHEDULE_APPOINTMENT => r := [TextTo(phone, SCHEDULE_TEXT)];
      case _ => r := [UnknownCommandResponse(phone)];
    }
  }
}
