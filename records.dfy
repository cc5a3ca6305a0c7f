/**
 * The CARE database rows the bot reads, reduced to the columns it uses, and the
 * ORM queries it issues. A table is either its rows in default order or `Down`,
 * meaning every query on it raises (a database error).
 */
module Records {
  import opened Wrappers
  import Text
  import Ordering

  datatype Table<T> = Rows(rows: seq<T>) | Down

  /** A calendar date (`datetime.date`). */
  datatype Date = Date(year: int, month: int, day: int)

  /** A stored timestamp: integer seconds for comparisons, plus its `strftime('%Y-%m-%d')` text. */
  datatype Stamp = Stamp(at: int, text: string)

  datatype Patient = Patient(
    externalId: string,
    name: string,
    phone: Option<string>,
    gender: string,
    bloodGroup: string,
    dateOfBirth: Option<Date>,
    yearOfBirth: Option<int>,
    organizationId: Option<int>,        // `patient.organization_id`, None without an organization
    organizationName: Option<string>,   // `patient.organization.name`, None without an organization
    created: Option<Stamp>)

  /** A CARE user (hospital staff). */
  datatype StaffUser = StaffUser(
    id: int,
    firstName: string,
    lastName: string,
    username: string,
    userType: string,
    phone: Option<string>,
    isActive: bool)

  datatype Encounter = Encounter(
    externalId: string,
    patientId: string,                  // external id of the patient it belongs to
    created: Option<Stamp>,
    encounterClass: Option<string>,     // None when the attribute is absent
    hasProcedureRequest: bool,
    hasObservation: bool,
    status: Option<string>)             // None when the attribute is absent

  datatype Medication = Medication(
    externalId: string,
    patientId: string,
    status: string,
    created: Option<Stamp>,
    medicationName: Option<string>)     // None when the attribute is absent

  datatype Consultation = Consultation(
    externalId: string,
    patientId: string,
    created: Option<Stamp>,
    dischargeDate: Option<int>,
    facilityName: Option<string>,       // None without a facility
    assignedTo: Option<string>,         // the assigned doctor's full name, None if unassigned
    consultationType: Option<string>)   // None when the attribute is absent

  datatype Facility = Facility(id: int, name: string, address: string, isActive: bool, facilityType: string)

  datatype FacilityUser = FacilityUser(facilityId: int, createdAt: int, userFullName: string, username: string)

  datatype Db = Db(
    patients: Table<Patient>,
    users: Table<StaffUser>,
    encounters: Table<Encounter>,
    medications: Table<Medication>,
    consultations: Table<Consultation>,
    facilities: Table<Facility>,
    facilityUsers: Table<FacilityUser>)

  /** How `Model.objects.get(...)` ends. */
  datatype Got<T> = Found(row: T) | DoesNotExist | QueryFailed

  /** `objects.get(<p>)`: exactly one match, none (DoesNotExist), or a failure (several matches, or table down). */
  function GetWhere<T(!new)>(t: Table<T>, p: T -> bool): (r: Got<T>)
    ensures r.Found? <==> t.Rows? && |Ordering.Filter(t.rows, p)| == 1
    ensures r.Found? ==> p(r.row) && r.row in t.rows
    ensures r == DoesNotExist <==> t.Rows? && forall x :: x in t.rows ==> !p(x)
  {
    match t
    case Down => QueryFailed
    case Rows(rows) =>
      var m := Ordering.Filter(rows, p);
      if |m| == 1 then Found(m[0])
      else if m == [] then DoesNotExist
      else
        assert m[0] in rows && p(m[0]);
        QueryFailed
  }

  /** The index of the first row satisfying `p`, or -1. */
  function FirstIndex<T>(rows: seq<T>, p: T -> bool): (i: int)
    ensures -1 <= i < |rows|
    ensures i >= 0 ==> p(rows[i])
    ensures forall j :: 0 <= j < |rows| && (i < 0 || j < i) ==> !p(rows[j])
  {
    if rows == [] then -1
    else if p(rows[0]) then 0
    else
      var k := FirstIndex(rows[1..], p);
      if k < 0 then -1 else k + 1
  }

  /** `objects.filter(<p>).first()` in default order; None when nothing matches. */
  function FirstWhere<T>(rows: seq<T>, p: T -> bool): (r: Option<T>)
    ensures r.None? <==> forall j :: 0 <= j < |rows| ==> !p(rows[j])
    ensures r.Some? ==> exists i :: 0 <= i < |rows| && rows[i] == r.value && p(rows[i]) &&
                                    forall j :: 0 <= j < i ==> !p(rows[j])
  {
    var i := FirstIndex(rows, p);
    if i < 0 then None else Some(rows[i])
  }

  /** `field__icontains=needle` on a nullable text column: NULL never matches. */
  predicate IContains(field: Option<string>, needle: string) {
    field.Some? && Text.Contains(Text.Lower(field.value), Text.Lower(needle))
  }

  /** The ORM's stable order by a stamp, newest first (`order_by('-created_date')`). */
  function NewestFirst<T>(rows: seq<T>, at: T -> int): (r: seq<T>)
    ensures multiset(r) == multiset(rows) && |r| == |rows|
    ensures forall i, j :: 0 <= i < j < |r| ==> at(r[i]) >= at(r[j])
  {
    var s := Ordering.SortBy(rows, x => -at(x));
    assert Ordering.SortedBy(s, x => -at(x));
    s
  }

  /** `order_by('created_date')`, oldest first. */
  function OldestFirst<T>(rows: seq<T>, at: T -> int): (r: seq<T>)
    ensures multiset(r) == multiset(rows) && |r| == |rows|
    ensures forall i, j :: 0 <= i < j < |r| ==> at(r[i]) <= at(r[j])
  {
    Ordering.SortBy(rows, at)
  }

  /** `filter(<keep>).order_by('-<at>')`: every matching row, newest first. */
  function Newest<T(!new)>(rows: seq<T>, keep: T -> bool, at: T -> int): (r: seq<T>)
    ensures forall x :: x in r <==> x in rows && keep(x)
    ensures forall i, j :: 0 <= i < j < |r| ==> at(r[i]) >= at(r[j])
    ensures multiset(r) == multiset(Ordering.Filter(rows, keep))
  {
    var m := Ordering.Filter(rows, keep);
    var r := NewestFirst(m, at);
    assert forall x :: x in r <==> x in multiset(r);
    assert forall x :: x in m <==> x in multiset(m);
    r
  }

  /** `filter(<keep>).order_by('-<at>')[:k]`: the k newest matching rows, or all of them if fewer. */
  function NewestMatching<T(!new)>(rows: seq<T>, keep: T -> bool, at: T -> int, k: nat): (r: seq<T>)
    ensures |r| <= k
    ensures forall i :: 0 <= i < |r| ==> r[i] in rows && keep(r[i])
    ensures forall i, j :: 0 <= i < j < |r| ==> at(r[i]) >= at(r[j])
    ensures |r| < k ==> forall x :: x in rows && keep(x) ==> x in r
    ensures 0 < k && |r| == k ==> forall x :: x in rows && keep(x) && x !in r ==> at(x) <= at(r[k - 1])
  {
    var all := Newest(rows, keep, at);
    TakeOfNewest(all, at, k);
    Ordering.Take(all, k)
  }

  /** `[:k]` of a newest-first list: its k newest rows, or all of them if fewer. */
  lemma TakeOfNewest<T>(all: seq<T>, at: T -> int, k: nat)
    requires forall i, j :: 0 <= i < j < |all| ==> at(all[i]) >= at(all[j])
    ensures var r := Ordering.Take(all, k);
            (forall x :: x in r ==> x in all) &&
            (forall i, j :: 0 <= i < j < |r| ==> at(r[i]) >= at(r[j])) &&
            (|r| < k ==> r == all) &&
            (0 < k && |r| == k ==> forall x :: x in all && x !in r ==> at(x) <= at(r[k - 1]))
  {
    var r := Ordering.Take(all, k);
    assert forall i :: 0 <= i < |r| ==> r[i] == all[i];
    assert Ordering.SortedBy(all, x => -at(x));
    Ordering.PrefixIsLeast(all, x => -at(x), |r|);
  }

  /** `filter(<keep>).order_by('<at>')`: every matching row, oldest first. */
  function OldestMatching<T(!new)>(rows: seq<T>, keep: T -> bool, at: T -> int): (r: seq<T>)
    ensures forall x :: x in r <==> x in rows && keep(x)
    ensures forall i, j :: 0 <= i < j < |r| ==> at(r[i]) <= at(r[j])
    ensures multiset(r) == multiset(Ordering.Filter(rows, keep))
  {
    var m := Ordering.Filter(rows, keep);
    var r := OldestFirst(m, at);
    assert forall x :: x in r <==> x in multiset(r);
    assert forall x :: x in m <==> x in multiset(m);
    r
  }

  /** `filter(<keep>)[:k]` in default order: the first k matching rows. */
  function FirstMatching<T(!new)>(rows: seq<T>, keep: T -> bool, k: nat): (r: seq<T>)
    ensures |r| <= k
    ensures forall i :: 0 <= i < |r| ==> r[i] in rows && keep(r[i])
    ensures |r| < k ==> forall x :: x in rows && keep(x) ==> x in r
    ensures |r| <= |Ordering.Filter(rows, keep)| && r == Ordering.Filter(rows, keep)[..|r|]
  {
    var m := Ordering.Filter(rows, keep);
    var r := Ordering.Take(m, k);
    assert forall i :: 0 <= i < |r| ==> r[i] == m[i];
    assert |r| < k ==> r == m;
    r
  }

  /**
   * The seconds of a stamp that may be NULL, with NULL read as 0: as a sort key,
   * a row without a date sorts as the oldest.
   */
  function StampAt(s: Option<Stamp>): int {
    if s.Some? then s.value.at else 0
  }

  /** `created_date__gte=since`: NULL never satisfies a comparison. */
  predicate CreatedSince(s: Option<Stamp>, since: int) {
    s.Some? && s.value.at >= since
  }

  const DAY: int := 86400
}
