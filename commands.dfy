/**
 * The closed sets of commands and user kinds the handlers dispatch on, and the
 * user context dictionary the authenticator builds for a signed-in user.
 */
module Commands {
  import opened Wrappers

  /** The commands the handlers compare against; `Other` is any command no branch names. */
  datatype Command =
    | HELP
    | MENU
    | GET_RECORDS
    | GET_MEDICATIONS
    | GET_APPOINTMENTS
    | GET_PROCEDURES
    | CHECK_AVAILABLE_SLOTS
    | BOOK_APPOINTMENT
    | PATIENT_SEARCH
    | PATIENT_INFO
    | SCHEDULE_APPOINTMENT
    | Other(name: string)

  datatype UserKind = PATIENT | HOSPITAL_STAFF | UNKNOWN

  /**
   * The context dictionary of a signed-in user. `PatientContext` and `StaffContext`
   * are the two shapes the authenticator returns; `OtherContext` is any other
   * non-empty dictionary a caller may pass, of which only `user_type` is read.
   */
  datatype UserContext =
    | PatientContext(patientId: string, name: string, phone: string, organizationId: Option<int>)
    | StaffContext(userId: int, name: string, phone: string, username: string, userTypeDetail: string)
    | OtherContext(userType: Option<UserKind>)
  {
    /** `context.get('user_type')` */
    function Kind(): Option<UserKind> {
      match this
      case PatientContext(_, _, _, _) => Some(PATIENT)
      case StaffContext(_, _, _, _, _) => Some(HOSPITAL_STAFF)
      case OtherContext(k) => k
    }

    /** `context.get('patient_id')`, with an empty id reading as missing (it is falsy). */
    function PatientId(): Option<string> {
      if PatientContext? && patientId != "" then Some(patientId) else None
    }

    /** `context.get('user_id')`, with id 0 reading as missing (it is falsy). */
    function UserId(): Option<int> {
      if StaffContext? && userId != 0 then Some(userId) else None
    }
  }
}
