/**
 * The message formatter: list and summary messages for the chat, the message
 * length limit, consistent error and success texts, phone display and reply
 * buttons. Records arrive as decoded Python values (`Json`); a list element that
 * is not a dict makes `.get` raise, which each formatter turns into its own error text.
 */
module DataFormatter {
  import opened Wrappers
  import opened PyJson
  import Text
  import Ordering

  const MAX_MESSAGE_LENGTH: nat := 4096
  const MAX_LIST_ITEMS: nat := 10

  /** What a truncated message ends with. */
  const TRUNCATION_SUFFIX: string :=
    "\n\n... (message truncated)\n\nFor complete information, please use the CARE web portal."

  /** The suffix is 84 characters, more than the 50 the truncation reserves for it. */
  lemma TruncationSuffixLength()
    ensures |TRUNCATION_SUFFIX| == 84
  {
  }

  // ---------------------------------------------------------------------------
  // Truncation

  /**
   * How much of a long message survives: its first `keep` characters, cut back to the
   * last space among them when that space lies beyond index MAX_MESSAGE_LENGTH - 100.
   */
  function KeptLength(m: string, keep: nat): (k: nat)
    requires keep <= |m|
    ensures k <= keep
    ensures k < keep ==> MAX_MESSAGE_LENGTH - 100 < k && m[k] == ' '
    ensures k < keep ==> forall j :: k < j < keep ==> m[j] != ' '
    ensures (forall j :: MAX_MESSAGE_LENGTH - 100 < j < keep ==> m[j] != ' ') ==> k == keep
  {
    var t := m[..keep];
    var last := Text.RFind(t, ' ');
    if last > MAX_MESSAGE_LENGTH - 100 then
      assert t[last] == ' ';
      last
    else
      assert forall j :: MAX_MESSAGE_LENGTH - 100 < j < keep ==> m[j] == t[j];
      keep
  }

  /** A message is cut only when it is over the limit; what is kept is a prefix of it. */
  function TruncateKeeping(m: string, keep: nat): (r: string)
    requires keep <= MAX_MESSAGE_LENGTH
    ensures |m| <= MAX_MESSAGE_LENGTH ==> r == m
    ensures |m| > MAX_MESSAGE_LENGTH ==> r == m[..KeptLength(m, keep)] + TRUNCATION_SUFFIX
  {
    if |m| <= MAX_MESSAGE_LENGTH then m
    else m[..KeptLength(m, keep)] + TRUNCATION_SUFFIX
  }

  /** `_truncate_message` as written: it keeps up to MAX_MESSAGE_LENGTH - 50 characters. */
  function TruncateAsWritten(m: string): (r: string)
    ensures |m| <= MAX_MESSAGE_LENGTH ==> r == m
    ensures |m| > MAX_MESSAGE_LENGTH ==>
      MAX_MESSAGE_LENGTH - 100 < |r| - |TRUNCATION_SUFFIX| <= MAX_MESSAGE_LENGTH - 50 &&
      r == m[..|r| - |TRUNCATION_SUFFIX|] + TRUNCATION_SUFFIX
  {
    TruncateKeeping(m, MAX_MESSAGE_LENGTH - 50)
  }

  /**
   * The truncation as written can send a message over the limit it enforces: when no
   * space falls in the last fifty characters it keeps, the result has 4130 characters.
   */
  lemma TruncateAsWrittenExceedsLimit(m: string)
    requires |m| > MAX_MESSAGE_LENGTH
    requires forall j :: MAX_MESSAGE_LENGTH - 100 < j < MAX_MESSAGE_LENGTH - 50 ==> m[j] != ' '
    ensures |TruncateAsWritten(m)| == 4130 > MAX_MESSAGE_LENGTH
  {
    assert KeptLength(m, MAX_MESSAGE_LENGTH - 50) == MAX_MESSAGE_LENGTH - 50;
  }

  /** A 5000-character message without spaces is one that shows it. */
  lemma TruncateAsWrittenCounterexample()
    ensures exists m :: |m| > MAX_MESSAGE_LENGTH && |TruncateAsWritten(m)| > MAX_MESSAGE_LENGTH
  {
    var m: string := seq(5000, i => 'x');
    TruncateAsWrittenExceedsLimit(m);
  }

  /**
   * `_truncate_message` as evidently intended: the room reserved for the suffix is the
   * suffix's own length, so a truncated message is never over the limit. Every formatter
   * of this model uses it.
   */
  function Truncate(m: string): (r: string)
    ensures |r| <= MAX_MESSAGE_LENGTH
    ensures |m| <= MAX_MESSAGE_LENGTH ==> r == m
    ensures |m| > MAX_MESSAGE_LENGTH ==>
      MAX_MESSAGE_LENGTH - 100 < |r| - |TRUNCATION_SUFFIX| &&
      r == m[..|r| - |TRUNCATION_SUFFIX|] + TRUNCATION_SUFFIX
  {
    TruncateKeeping(m, MAX_MESSAGE_LENGTH - |TRUNCATION_SUFFIX|)
  }

  /** Truncating twice is truncating once. */
  lemma TruncateIdempotent(m: string)
    ensures Truncate(Truncate(m)) == Truncate(m)
  {
  }

  // ---------------------------------------------------------------------------
  // Fields and list items

  /** One optional line: `prefix + str(d[key]) + "\n"`, written only when `d.get(key)` is truthy. */
  datatype Field = Field(key: string, prefix: string)

  /** `d.get(key)` on a dict. */
  function GetKey(d: map<string, Json>, key: string): Json {
    if key in d then d[key] else JNull
  }

  function FieldLine(d: map<string, Json>, f: Field): string {
    if Truthy(GetKey(d, f.key)) then f.prefix + Show(d[f.key]) + "\n" else ""
  }

  /** The lines of the truthy fields of `d`, in the order of `fields`. */
  function FieldLines(d: map<string, Json>, fields: seq<Field>): (r: string)
  {
    if fields == [] then "" else FieldLines(d, fields[..|fields| - 1]) + FieldLine(d, fields[|fields| - 1])
  }

  /** Only truthy fields are written: a record none of whose listed fields is truthy adds no line. */
  lemma {:induction false} FieldLinesEmpty(d: map<string, Json>, fields: seq<Field>)
    ensures FieldLines(d, fields) == "" <==> forall i :: 0 <= i < |fields| ==> !Truthy(GetKey(d, fields[i].key))
  {
    if fields != [] {
      var f := fields[|fields| - 1];
      FieldLinesEmpty(d, fields[..|fields| - 1]);
      if Truthy(GetKey(d, f.key)) {
        assert |FieldLine(d, f)| > 0;
      }
    }
  }

  /** The lines read nothing but the listed keys: records that agree on them are written alike. */
  lemma {:induction false} FieldLinesReadOnlyFields(d: map<string, Json>, e: map<string, Json>, fields: seq<Field>)
    requires forall i :: 0 <= i < |fields| ==> GetKey(d, fields[i].key) == GetKey(e, fields[i].key)
    ensures FieldLines(d, fields) == FieldLines(e, fields)
  {
    if fields != [] {
      FieldLinesReadOnlyFields(d, e, fields[..|fields| - 1]);
      assert GetKey(d, fields[|fields| - 1].key) == GetKey(e, fields[|fields| - 1].key);
    }
  }

  /** The fixed parts of one list formatter. */
  datatype ListStyle = ListStyle(
    emptyText: string,       // the whole message for an empty list
    header: string,
    titleKey: string,        // the item's headline field, with its default
    titleDefault: string,
    fields: seq<Field>,
    noun: string,            // "... and N more <noun>"
    footer: string,
    errorText: string)       // the message when formatting raises

  predicate AllDicts(s: seq<Json>) {
    forall i :: 0 <= i < |s| ==> s[i].JObj?
  }

  /** Item number `n`: its headline in bold, its truthy field lines, a blank line. */
  function ItemText(n: nat, item: Json, st: ListStyle): string {
    if !item.JObj? then ""
    else
      var d := item.fields;
      var title := if st.titleKey in d then d[st.titleKey] else JStr(st.titleDefault);
      "*" + Text.NatToString(n) + ". " + Show(title) + "*\n" + FieldLines(d, st.fields) + "\n"
  }

  function ItemRenderer(st: ListStyle): (nat, Json) -> string {
    (n: nat, item: Json) => ItemText(n, item, st)
  }

  /** The items of `s`, numbered from `start`. */
  function ItemsFrom(s: seq<Json>, start: nat, st: ListStyle): string {
    Text.Joined(s, start, ItemRenderer(st))
  }

  /** The "... and N more <noun>" line, present exactly when more than MAX_LIST_ITEMS were given. */
  function MoreLine(n: nat, noun: string): (r: string)
    ensures r != "" <==> n > MAX_LIST_ITEMS
    ensures n > MAX_LIST_ITEMS ==> Text.Contains(r, Text.NatToString(n - MAX_LIST_ITEMS))
  {
    if n > MAX_LIST_ITEMS then
      var r := "... and " + Text.NatToString(n - MAX_LIST_ITEMS) + " more " + noun + "\n\n";
      Text.ContainsInfix("... and ", Text.NatToString(n - MAX_LIST_ITEMS), " more " + noun + "\n\n");
      assert r == "... and " + Text.NatToString(n - MAX_LIST_ITEMS) + (" more " + noun + "\n\n");
      r
    else ""
  }

  /** `items[:MAX_LIST_ITEMS]`, the items a list message shows. */
  function Shown(items: seq<Json>): (r: seq<Json>)
    ensures r == Ordering.Take(items, MAX_LIST_ITEMS)
  {
    Ordering.Take(items, MAX_LIST_ITEMS)
  }

  /** The message before truncation: header, the first MAX_LIST_ITEMS items, the "more" line, footer. */
  function ListBody(items: seq<Json>, st: ListStyle): string {
    st.header + ItemsFrom(Shown(items), 1, st) + MoreLine(|items|, st.noun) + st.footer
  }

  /** What a list formatter returns for `items`. */
  function ListMessage(items: seq<Json>, st: ListStyle): (r: string)
    ensures items == [] ==> r == st.emptyText
    ensures items != [] && !AllDicts(Shown(items)) ==> r == st.errorText
    ensures items != [] && AllDicts(Shown(items)) ==>
            |r| <= MAX_MESSAGE_LENGTH && r == Truncate(ListBody(items, st))
  {
    if items == [] then st.emptyText
    else if !AllDicts(Shown(items)) then st.errorText
    else Truncate(ListBody(items, st))
  }

  /**
   * The body lists the first min(n, MAX_LIST_ITEMS) items numbered 1, 2, ...: item `j`
   * appears as number j + 1, and every item after the first MAX_LIST_ITEMS is left out.
   */
  lemma ListBodyShowsItem(items: seq<Json>, st: ListStyle, j: nat)
    requires j < |Shown(items)|
    ensures items[j] == Shown(items)[j]
    ensures ListBody(items, st) ==
            st.header +
            (ItemsFrom(Shown(items)[..j], 1, st) + ItemText(j + 1, items[j], st) + ItemsFrom(Shown(items)[j + 1..], j + 2, st)) +
            MoreLine(|items|, st.noun) + st.footer
  {
    var shown := Shown(items);
    Text.JoinedAt(shown, 1, ItemRenderer(st), j);
  }

  /** The loop that renders a list: `for i, item in enumerate(items[:MAX_LIST_ITEMS], 1)`. */
  method FormatList(items: seq<Json>, st: ListStyle) returns (msg: string)
    ensures msg == ListMessage(items, st)
  {
    if |items| == 0 {
      return st.emptyText;
    }
    var shown := Shown(items);
    var lines := "";
    var i := 0;
    while i < |shown|
      invariant 0 <= i <= |shown|
      invariant forall j :: 0 <= j < i ==> shown[j].JObj?
      invariant lines == ItemsFrom(shown[..i], 1, st)
    {
      if !shown[i].JObj? {
        assert !AllDicts(shown);
        return st.errorText;
      }
      assert ItemsFrom(shown[..i + 1], 1, st) == lines + ItemText(i + 1, shown[i], st) by {
        Text.JoinedExtend(shown, i, 1, ItemRenderer(st));
      }
      lines := lines + ItemText(i + 1, shown[i], st);
      i := i + 1;
    }
    assert shown[..i] == shown;
    assert AllDicts(shown);
    msg := Truncate(st.header + lines + MoreLine(|items|, st.noun) + st.footer);
  }

  const MEDICATION_STYLE: ListStyle := ListStyle(
    "\U{1F48A} *Current Medications*\n\nNo active medications found.",
    "\U{1F48A} *Current Medications*\n\n",
    "medication_name", "Unknown medication",
    [Field("dosage", "   Dosage: "), Field("frequency", "   Frequency: "), Field("status", "   Status: ")],
    "medications",
    "\U{26A0}\U{FE0F} Follow doctor's instructions.",
    "\U{274C} Error formatting medication information")

  const APPOINTMENT_STYLE: ListStyle := ListStyle(
    "\U{1F4C5} *Upcoming Appointments*\n\nNo upcoming appointments found.",
    "\U{1F4C5} *Upcoming Appointments*\n\n",
    "date", "Unknown date",
    [Field("facility_name", "   Facility: "), Field("doctor_name", "   Doctor: "),
     Field("consultation_type", "   Type: ")],
    "appointments",
    "\U{1F4DE} *Reminder:* Please arrive 15 minutes early.",
    "\U{274C} Error formatting appointment information")

  const RECORDS_STYLE: ListStyle := ListStyle(
    "\U{1F4CB} *Medical Records*\n\nNo recent medical records found.",
    "\U{1F4CB} *Recent Medical Records*\n\n",
    "date", "Unknown date",
    [Field("encounter_type", "   Type: "), Field("chief_complaint", "   Complaint: "),
     Field("diagnosis", "   Diagnosis: ")],
    "records",
    "\U{26A0}\U{FE0F} Summary only. Visit provider for complete records.",
    "\U{274C} Error formatting medical records")

  function SearchStyle(query: string): ListStyle {
    ListStyle(
      "\U{1F50D} No patients found matching '" + query + "'.\nTry searching with a different term.",
      "\U{1F50D} *Search Results for '" + query + "'*\n\n",
      "name", "Unknown",
      [Field("patient_id", "   ID: "), Field("age", "   Age: "), Field("gender", "   Gender: "),
       Field("phone_masked", "   Phone: ")],
      "results",
      "\U{1F4A1} Use `patient info <ID>` for details.",
      "\U{274C} Error formatting search results")
  }

  /** `format_medication_list` */
  method FormatMedicationList(medications: seq<Json>) returns (msg: string)
    ensures msg == ListMessage(medications, MEDICATION_STYLE)
    ensures medications == [] ==> msg == "\U{1F48A} *Current Medications*\n\nNo active medications found."
  {
    msg := FormatList(medications, MEDICATION_STYLE);
  }

  /** `format_appointment_list` */
  method FormatAppointmentList(appointments: seq<Json>) returns (msg: string)
    ensures msg == ListMessage(appointments, APPOINTMENT_STYLE)
    ensures appointments == [] ==> msg == "\U{1F4C5} *Upcoming Appointments*\n\nNo upcoming appointments found."
  {
    msg := FormatList(appointments, APPOINTMENT_STYLE);
  }

  /** `format_medical_records` */
  method FormatMedicalRecords(records: seq<Json>) returns (msg: string)
    ensures msg == ListMessage(records, RECORDS_STYLE)
    ensures records == [] ==> msg == "\U{1F4CB} *Medical Records*\n\nNo recent medical records found."
  {
    msg := FormatList(records, RECORDS_STYLE);
  }

  /** `format_search_results`: an empty result echoes the query. */
  method FormatSearchResults(results: seq<Json>, query: string) returns (msg: string)
    ensures msg == ListMessage(results, SearchStyle(query))
    ensures results == [] ==> Text.Contains(msg, query)
  {
    msg := FormatList(results, SearchStyle(query));
    if results == [] {
      Text.ContainsInfix("\U{1F50D} No patients found matching '", query, "'.\nTry searching with a different term.");
    }
  }

  // ---------------------------------------------------------------------------
  // Patient summary

  const SUMMARY_FIELDS: seq<Field> := [
    Field("name", "*Name:* "), Field("patient_id", "*ID:* "), Field("age", "*Age:* "),
    Field("gender", "*Gender:* "), Field("blood_group", "*Blood Group:* ")]

  const SUMMARY_HEADER: string := "\U{1F464} *Patient Summary*\n\n"

  /** `format_patient_summary`: the truthy fields in a fixed order; a value that is not a dict raises. */
  function FormatPatientSummary(patient: Json): (r: string)
    ensures !patient.JObj? ==> r == "\U{274C} Error formatting patient information"
    ensures patient.JObj? ==> r == Truncate(SUMMARY_HEADER + FieldLines(patient.fields, SUMMARY_FIELDS))
    ensures |r| <= MAX_MESSAGE_LENGTH
  {
    if !patient.JObj? then "\U{274C} Error formatting patient information"
    else Truncate(SUMMARY_HEADER + FieldLines(patient.fields, SUMMARY_FIELDS))
  }

  /** A summary without a single truthy field is the bare header. */
  lemma SummaryOfEmptyRecord(patient: Json)
    requires patient.JObj?
    requires forall i :: 0 <= i < |SUMMARY_FIELDS| ==> !Truthy(GetKey(patient.fields, SUMMARY_FIELDS[i].key))
    ensures FormatPatientSummary(patient) == SUMMARY_HEADER
  {
    FieldLinesEmpty(patient.fields, SUMMARY_FIELDS);
  }

  // ---------------------------------------------------------------------------
  // Fixed messages

  /** The text of a known key, or the default; details follow a blank line when non-empty. */
  function WithDetails(base: string, details: Option<string>): (r: string)
    ensures Text.StartsWith(r, base)
    ensures r == base <==> details.None? || details.value == ""
    ensures details.Some? && details.value != "" ==> r == base + "\n\n" + details.value
  {
    if details.Some? && details.value != "" then
      var r := base + "\n\n" + details.value;
      assert r[..|base|] == base;
      r
    else base
  }

  const ERROR_MESSAGES: map<string, string> := map[
    "authentication" := "\U{1F510} Authentication required. Please log in first.",
    "permission" := "\U{1F512} You don't have permission to access this information.",
    "not_found" := "\U{274C} The requested information was not found.",
    "invalid_input" := "\U{2753} Invalid input. Check command and try again.",
    "system_error" := "\U{26A0}\U{FE0F} System error. Try again later.",
    "rate_limit" := "\U{23F0} Too many requests. Wait before trying again."]

  const SUCCESS_MESSAGES: map<string, string> := map[
    "login" := "\U{2705} Successfully logged in!",
    "logout" := "\U{2705} Successfully logged out!",
    "data_retrieved" := "\U{2705} Information retrieved successfully!",
    "action_completed" := "\U{2705} Action completed successfully!"]

  /** `format_error_message` */
  function FormatErrorMessage(errorType: string, details: Option<string>): (r: string)
    ensures errorType in ERROR_MESSAGES ==> Text.StartsWith(r, ERROR_MESSAGES[errorType])
    ensures errorType !in ERROR_MESSAGES ==> Text.StartsWith(r, "\U{274C} An error occurred.")
    ensures (details.None? || details.value == "") ==>
            r == if errorType in ERROR_MESSAGES then ERROR_MESSAGES[errorType] else "\U{274C} An error occurred."
    ensures details.Some? && details.value != "" ==>
            r == (if errorType in ERROR_MESSAGES then ERROR_MESSAGES[errorType] else "\U{274C} An error occurred.") +
                 "\n\n" + details.value
  {
    WithDetails(if errorType in ERROR_MESSAGES then ERROR_MESSAGES[errorType] else "\U{274C} An error occurred.", details)
  }

  /** `format_success_message` */
  function FormatSuccessMessage(action: string, details: Option<string>): (r: string)
    ensures action in SUCCESS_MESSAGES ==> Text.StartsWith(r, SUCCESS_MESSAGES[action])
    ensures action !in SUCCESS_MESSAGES ==> Text.StartsWith(r, "\U{2705} Success!")
    ensures (details.None? || details.value == "") ==>
            r == if action in SUCCESS_MESSAGES then SUCCESS_MESSAGES[action] else "\U{2705} Success!"
    ensures details.Some? && details.value != "" ==>
            r == (if action in SUCCESS_MESSAGES then SUCCESS_MESSAGES[action] else "\U{2705} Success!") + "\n\n" + details.value
  {
    WithDetails(if action in SUCCESS_MESSAGES then SUCCESS_MESSAGES[action] else "\U{2705} Success!", details)
  }

  // ---------------------------------------------------------------------------
  // Phone display

  /** How ten or more digits are shown: "ddddd ddddd", with "+<country code> " before them when longer. */
  function GroupDigits(d: string): (r: string)
    requires |d| >= 10
    ensures |d| == 10 ==> r == d[..5] + " " + d[5..]
    ensures |d| > 10 ==> r == "+" + d[..|d| - 10] + " " + d[|d| - 10..|d| - 5] + " " + d[|d| - 5..]
  {
    if |d| > 10 then
      var number := d[|d| - 10..];
      assert number[..5] == d[|d| - 10..|d| - 5] && number[5..] == d[|d| - 5..];
      "+" + d[..|d| - 10] + " " + number[..5] + " " + number[5..]
    else d[..5] + " " + d[5..]
  }

  /** `format_phone_number` */
  function FormatPhoneNumber(phone: string): (r: string)
    ensures phone == "" ==> r == "Not available"
    ensures phone != "" && |Text.Digits(phone)| < 10 ==> r == phone
    ensures phone != "" && |Text.Digits(phone)| >= 10 ==> r == GroupDigits(Text.Digits(phone))
  {
    if phone == "" then "Not available"
    else
      var d := Text.Digits(phone);
      if |d| >= 10 then GroupDigits(d) else phone
  }

  /** Formatting only adds separators: the digits shown are the digits given, in order. */
  lemma FormatPhoneKeepsDigits(phone: string)
    requires |Text.Digits(phone)| >= 10
    ensures Text.Digits(FormatPhoneNumber(phone)) == Text.Digits(phone)
  {
    GroupDigitsKeepsDigits(Text.Digits(phone));
  }

  lemma GroupDigitsKeepsDigits(d: string)
    requires Text.AllDigits(d) && |d| >= 10
    ensures Text.Digits(GroupDigits(d)) == d
  {
    if |d| > 10 {
      InternationalGroupsKeepDigits(d);
    } else {
      NationalGroupsKeepDigits(d);
    }
  }

  /** "+<country> <5> <5>" keeps the digits in order. */
  lemma InternationalGroupsKeepDigits(d: string)
    requires Text.AllDigits(d) && |d| > 10
    ensures Text.Digits(GroupDigits(d)) == d
  {
    var cc, a, b := d[..|d| - 10], d[|d| - 10..|d| - 5], d[|d| - 5..];
    assert Text.AllDigits(cc) && Text.AllDigits(a) && Text.AllDigits(b);
    GroupsWithPlus(cc, a, b);
    assert cc + a + b == d;
  }

  /** The digits of "+<cc> <a> <b>" are those of the three groups. */
  lemma GroupsWithPlus(cc: string, a: string, b: string)
    requires Text.AllDigits(cc) && Text.AllDigits(a) && Text.AllDigits(b)
    ensures Text.Digits("+" + cc + " " + a + " " + b) == cc + a + b
  {
    var x1 := "+" + cc;
    assert Text.Digits(x1) == cc by {
      Text.DigitsConcat("+", cc);
      assert Text.Digits("+") == "";
    }
    var x2 := x1 + " ";
    assert Text.Digits(x2) == cc by {
      Text.DigitsConcat(x1, " ");
      assert Text.Digits(" ") == "";
    }
    var x3 := x2 + a;
    assert Text.Digits(x3) == cc + a by {
      Text.DigitsConcat(x2, a);
    }
    var x4 := x3 + " ";
    assert Text.Digits(x4) == cc + a by {
      Text.DigitsConcat(x3, " ");
      assert Text.Digits(" ") == "";
    }
    Text.DigitsConcat(x4, b);
  }

  /** "<5> <5>" keeps the digits in order. */
  lemma NationalGroupsKeepDigits(d: string)
    requires Text.AllDigits(d) && |d| == 10
    ensures Text.Digits(GroupDigits(d)) == d
  {
    var a, b := d[..5], d[5..];
    var x := a + " ";
    assert Text.AllDigits(a) && Text.AllDigits(b);
    assert Text.Digits(x) == a by {
      Text.DigitsConcat(a, " ");
      assert Text.Digits(" ") == "";
    }
    assert Text.Digits(x + b) == a + b by {
      Text.DigitsConcat(x, b);
    }
    assert GroupDigits(d) == x + b;
    assert a + b == d;
  }

  // ---------------------------------------------------------------------------
  // Interactive buttons

  /** The reply button built from `button` at position `i`. */
  function ButtonJson(i: nat, button: map<string, Json>): (r: Json)
    ensures r.JObj? && r.fields.Keys == {"type", "reply"} && r.fields["type"] == JStr("reply")
  {
    var id := if "id" in button then Show(button["id"]) else Text.NatToString(i);
    var title := if "title" in button then button["title"] else JStr("Option " + Text.NatToString(i + 1));
    JObj(map["type" := JStr("reply"),
             "reply" := JObj(map["id" := JStr("btn_" + Text.NatToString(i) + "_" + id), "title" := title])])
  }

  /**
   * `create_interactive_buttons`: at most three reply buttons, in the given order;
   * `{}` when one of the first three is not a dict.
   */
  method CreateInteractiveButtons(buttons: seq<Json>) returns (r: Json)
    ensures !AllDicts(Ordering.Take(buttons, 3)) ==> r == JObj(map[])
    ensures AllDicts(Ordering.Take(buttons, 3)) ==>
            r.JObj? && r.fields.Keys == {"buttons"} && r.fields["buttons"].JArr? &&
            |r.fields["buttons"].items| == |Ordering.Take(buttons, 3)| <= 3 &&
            forall i :: 0 <= i < |r.fields["buttons"].items| ==>
              r.fields["buttons"].items[i] == ButtonJson(i, buttons[i].fields)
  {
    var limited := Ordering.Take(buttons, 3);
    var formatted: seq<Json> := [];
    var i := 0;
    while i < |limited|
      invariant 0 <= i <= |limited|
      invariant AllDicts(limited[..i])
      invariant |formatted| == i
      invariant forall j :: 0 <= j < i ==> formatted[j] == ButtonJson(j, buttons[j].fields)
    {
      if !limited[i].JObj? {
        return JObj(map[]);
      }
      assert limited[i] == buttons[i];
      formatted := formatted + [ButtonJson(i, limited[i].fields)];
      assert limited[..i + 1] == limited[..i] + [limited[i]];
      i := i + 1;
    }
    assert limited[..i] == limited;
    r := JObj(map["buttons" := JArr(formatted)]);
  }
}
