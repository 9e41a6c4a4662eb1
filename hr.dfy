/** Staff and attendance (hr/models.py, hr/serializers.py, hr/views.py):
    the staff defaults, the attendance key `(staff, date)` and its status
    choices, the serializer rules, the attendance "mark" endpoint that
    updates the day's record when there is one and creates it otherwise,
    and a staff member's attendance history, newest day first. Dates are
    day numbers. */
module Hr {
  import opened Base
  import opened Tenancy

  type StaffId = nat
  type AttendanceId = nat

  datatype Staff = Staff(
    tenant: TenantId,
    name: string,
    position: string,
    phone: string,
    email: Option<string>,
    joiningDate: Option<int>,
    salary: real,
    aadhaarFile: Option<string>,
    isActive: bool)

  /** The writable fields of a new staff member; absent ones are None. The
      text fields hold what their `CharField`s hand on, already trimmed. */
  datatype StaffRequest = StaffRequest(
    name: string,
    phone: string,
    position: Option<string>,
    email: Option<string>,
    joiningDate: Option<int>,
    salary: Option<real>,
    aadhaarFile: Option<string>,
    isActive: Option<bool>)

  /** The row `serializer.save(tenant=request.tenant)` inserts: position
      "Staff", salary 0 and active unless given. */
  function NewStaff(tenant: TenantId, req: StaffRequest): (s: Staff)
    ensures s.tenant == tenant && s.name == req.name && s.phone == req.phone
    ensures s.position == (if req.position.Some? then req.position.value else "Staff")
    ensures s.salary == (if req.salary.Some? then req.salary.value else 0.0)
    ensures s.isActive == (req.isActive.None? || req.isActive.value)
  {
    Staff(tenant, req.name, req.position.GetOr("Staff"), req.phone, req.email, req.joiningDate,
          req.salary.GetOr(0.0), req.aadhaarFile, req.isActive.GetOr(true))
  }

  // ---------------------------------------------------------------------
  // Attendance rows.

  /** `ATTENDANCE_CHOICES`. */
  datatype AttendanceStatus = Present | Absent | Leave

  function StatusCode(s: AttendanceStatus): string {
    match s
    case Present => "Present"
    case Absent => "Absent"
    case Leave => "Leave"
  }

  /** The choice field's check on a submitted status. */
  function ParseStatus(code: string): (r: Option<AttendanceStatus>)
    ensures r.Some? <==> code in {"Present", "Absent", "Leave"}
    ensures r.Some? ==> StatusCode(r.value) == code
  {
    if code == "Present" then Some(Present)
    else if code == "Absent" then Some(Absent)
    else if code == "Leave" then Some(Leave)
    else None
  }

  lemma StatusRoundTrip(s: AttendanceStatus)
    ensures ParseStatus(StatusCode(s)) == Some(s)
  {
  }

  datatype Attendance = Attendance(
    id: AttendanceId,
    tenant: TenantId,
    staff: StaffId,
    date: int,
    status: AttendanceStatus)

  /** The HR tables: staff by id, and attendance rows in insertion order. */
  datatype HrTables = HrTables(
    staff: map<StaffId, Staff>,
    attendance: seq<Attendance>,
    nextStaffId: nat,
    nextAttendanceId: nat)

  /** The integrity the schema and the write paths keep: fresh ids, one row
      per `(staff, date)`, and every row for a staff member of its own
      tenant. */
  ghost predicate HrWellFormed(t: HrTables) {
    && (forall s :: s in t.staff ==> s < t.nextStaffId)
    && (forall i :: 0 <= i < |t.attendance| ==> t.attendance[i].id < t.nextAttendanceId)
    && (forall i, j :: 0 <= i < j < |t.attendance| ==> t.attendance[i].id != t.attendance[j].id)
    && OneRowPerDay(t.attendance)
    && (forall i :: 0 <= i < |t.attendance| ==>
          t.attendance[i].staff in t.staff && t.staff[t.attendance[i].staff].tenant == t.attendance[i].tenant)
  }

  /** The unique-together key `(staff, date)`. */
  ghost predicate OneRowPerDay(rows: seq<Attendance>) {
    forall i, j :: 0 <= i < j < |rows| ==> rows[i].staff != rows[j].staff || rows[i].date != rows[j].date
  }

  /** With one row per `(staff, date)`, there is at most one per
      `(staff, date, tenant)` too. */
  lemma AtMostOneRowPerDay(t: HrTables, i: nat, j: nat)
    requires HrWellFormed(t) && i < |t.attendance| && j < |t.attendance|
    requires t.attendance[i].staff == t.attendance[j].staff && t.attendance[i].date == t.attendance[j].date
    ensures i == j
  {
  }

  class HrDatabase {
    var staff: map<StaffId, Staff>
    var attendance: seq<Attendance>
    var nextStaffId: nat
    var nextAttendanceId: nat

    function State(): HrTables
      reads this
    {
      HrTables(staff, attendance, nextStaffId, nextAttendanceId)
    }

    constructor ()
      ensures State() == HrTables(map[], [], 1, 1) && HrWellFormed(State())
    {
      staff, attendance, nextStaffId, nextAttendanceId := map[], [], 1, 1;
    }
  }

  /** `StaffViewSet.perform_create`: the new member gets the request's
      tenant; without one the insert fails on the non-null column. */
  method CreateStaff(db: HrDatabase, tenant: Option<TenantId>, req: StaffRequest) returns (r: Option<StaffId>)
    modifies db
    ensures tenant.None? ==> r.None? && db.State() == old(db.State())
    ensures tenant.Some? ==>
      && r == Some(old(db.nextStaffId))
      && db.State() == old(db.State()).(staff := old(db.staff)[old(db.nextStaffId) := NewStaff(tenant.value, req)],
                                        nextStaffId := old(db.nextStaffId) + 1)
  {
    if tenant.None? {
      return None;
    }
    var id := db.nextStaffId;
    db.staff := db.staff[id := NewStaff(tenant.value, req)];
    db.nextStaffId := id + 1;
    r := Some(id);
  }

  lemma CreateStaffKeepsWellFormed(t: HrTables, tenant: TenantId, req: StaffRequest)
    requires HrWellFormed(t)
    ensures HrWellFormed(t.(staff := t.staff[t.nextStaffId := NewStaff(tenant, req)], nextStaffId := t.nextStaffId + 1))
  {
    var t2 := t.(staff := t.staff[t.nextStaffId := NewStaff(tenant, req)], nextStaffId := t.nextStaffId + 1);
    assert forall i :: 0 <= i < |t.attendance| ==> t.attendance[i].staff != t.nextStaffId;
  }

  // ---------------------------------------------------------------------
  // Marking attendance.

  /** The fields of `POST /attendance/` the endpoint reads: `staffId`,
      `date` and `status`, each possibly absent. */
  datatype AttendanceRequest = AttendanceRequest(staffId: Option<int>, date: Option<int>, status: Option<string>)

  /** The validation errors of the attendance serializer. */
  datatype AttendanceError =
    | StaffRequired | UnknownStaff | DateRequired | StatusRequired | BadStatus
    | DuplicateDay | StaffOfOtherTenant

  /** What the endpoint answers: 200 with the updated row, 201 with the
      created row, or 400 with the errors. */
  datatype MarkOutcome = Updated(id: AttendanceId) | Created(id: AttendanceId) | Rejected(errors: set<AttendanceError>)

  /** `Attendance.objects.filter(staff_id=..., date=..., tenant=...).first()`:
      the index of that row, if there is one. */
  function FindAttendance(rows: seq<Attendance>, staffId: int, date: int, tenant: TenantId): (r: Option<nat>)
    ensures r.Some? ==> r.value < |rows| && rows[r.value].staff == staffId && rows[r.value].date == date
                        && rows[r.value].tenant == tenant
    ensures r.None? ==> forall i :: 0 <= i < |rows| ==>
      rows[i].staff != staffId || rows[i].date != date || rows[i].tenant != tenant
  {
    if rows == [] then None
    else if rows[0].staff == staffId && rows[0].date == date && rows[0].tenant == tenant then Some(0)
    else
      match FindAttendance(rows[1..], staffId, date, tenant)
      case Some(k) => Some(k + 1)
      case None => None
  }

  /** Whether some row other than the one at `except` has this `(staff, date)`
      (the unique-together validator; `except` is `|rows|` when creating). */
  predicate DayTaken(rows: seq<Attendance>, staffId: int, date: int, except: nat) {
    exists i :: 0 <= i < |rows| && i != except && rows[i].staff == staffId && rows[i].date == date
  }

  /** The field errors: on a create every field is required; on a partial
      update only the given ones are checked. `staffId` must name a staff
      member of any tenant, and `status` one of the choices. */
  function FieldErrors(staff: map<StaffId, Staff>, req: AttendanceRequest, partial: bool): (r: set<AttendanceError>)
    ensures r <= {StaffRequired, UnknownStaff, DateRequired, StatusRequired, BadStatus}
    ensures r == {} <==>
      && (req.staffId.Some? ==> req.staffId.value >= 0 && req.staffId.value in staff)
      && (req.status.Some? ==> ParseStatus(req.status.value).Some?)
      && (!partial ==> req.staffId.Some? && req.date.Some? && req.status.Some?)
  {
    (if req.staffId.None? then (if partial then {} else {StaffRequired})
     else if req.staffId.value < 0 || req.staffId.value !in staff then {UnknownStaff} else {})
    + (if req.date.None? && !partial then {DateRequired} else {})
    + (if req.status.None? then (if partial then {} else {StatusRequired})
       else if ParseStatus(req.status.value).None? then {BadStatus} else {})
  }

  /** `AttendanceSerializer.validate`: a given staff member must be of the
      request's tenant (with no tenant, no staff member is). */
  predicate StaffOfTenant(staff: map<StaffId, Staff>, req: AttendanceRequest, tenant: Option<TenantId>)
    requires req.staffId.Some? ==> req.staffId.value >= 0 && req.staffId.value in staff
  {
    req.staffId.Some? ==> Some(staff[req.staffId.value].tenant) == tenant
  }

  datatype MarkResult = MarkResult(tables: HrTables, outcome: MarkOutcome)

  /** `AttendanceViewSet.create`: look for the request tenant's row for that
      staff member and day; if there is one, validate the request as a
      partial update of it and save its status; otherwise validate it as a
      new row and insert it with the request's tenant. The field errors come
      first, then the unique key, then the tenant check. */
  function MarkAttendanceSpec(t: HrTables, tenant: Option<TenantId>, req: AttendanceRequest): MarkResult {
    var existing :=
      if tenant.Some? && req.staffId.Some? && req.date.Some?
      then FindAttendance(t.attendance, req.staffId.value, req.date.value, tenant.value) else None;
    match existing
    case Some(k) => MarkExisting(t, tenant, req, k)
    case None => MarkNew(t, tenant, req)
  }

  /** The update path: row `k` is the tenant's row for that staff member and day. */
  function MarkExisting(t: HrTables, tenant: Option<TenantId>, req: AttendanceRequest, k: nat): MarkResult
    requires req.staffId.Some? && req.date.Some? && k < |t.attendance|
  {
    var errors := FieldErrors(t.staff, req, true);
    if errors != {} then MarkResult(t, Rejected(errors))
    else if DayTaken(t.attendance, req.staffId.value, req.date.value, k) then MarkResult(t, Rejected({DuplicateDay}))
    else if !StaffOfTenant(t.staff, req, tenant) then MarkResult(t, Rejected({StaffOfOtherTenant}))
    else
      var row := t.attendance[k];
      var status := if req.status.Some? then ParseStatus(req.status.value).value else row.status;
      MarkResult(t.(attendance := t.attendance[k := row.(status := status)]), Updated(row.id))
  }

  /** The insert path: no row of the tenant for that staff member and day. */
  function MarkNew(t: HrTables, tenant: Option<TenantId>, req: AttendanceRequest): MarkResult {
    var errors := FieldErrors(t.staff, req, false);
    if errors != {} then MarkResult(t, Rejected(errors))
    else if DayTaken(t.attendance, req.staffId.value, req.date.value, |t.attendance|) then
      MarkResult(t, Rejected({DuplicateDay}))
    else if !StaffOfTenant(t.staff, req, tenant) then MarkResult(t, Rejected({StaffOfOtherTenant}))
    else
      var row := Attendance(t.nextAttendanceId, tenant.value, req.staffId.value as nat, req.date.value,
                            ParseStatus(req.status.value).value);
      MarkResult(t.(attendance := t.attendance + [row], nextAttendanceId := t.nextAttendanceId + 1),
                 Created(row.id))
  }

  /** The endpoint on the database. */
  method MarkAttendance(db: HrDatabase, tenant: Option<TenantId>, req: AttendanceRequest) returns (o: MarkOutcome)
    modifies db
    ensures MarkResult(db.State(), o) == MarkAttendanceSpec(old(db.State()), tenant, req)
  {
    var existing: Option<nat> := None;
    if tenant.Some? && req.staffId.Some? && req.date.Some? {
      existing := FindAttendance(db.attendance, req.staffId.value, req.date.value, tenant.value);
    }
    if existing.Some? {
      var k := existing.value;
      var errors := FieldErrors(db.staff, req, true);
      if errors != {} {
        return Rejected(errors);
      }
      if DayTaken(db.attendance, req.staffId.value, req.date.value, k) {
        return Rejected({DuplicateDay});
      }
      if !StaffOfTenant(db.staff, req, tenant) {
        return Rejected({StaffOfOtherTenant});
      }
      var row := db.attendance[k];
      if req.status.Some? {
        row := row.(status := ParseStatus(req.status.value).value);
      }
      db.attendance := db.attendance[k := row];
      o := Updated(row.id);
    } else {
      var errors := FieldErrors(db.staff, req, false);
      if errors != {} {
        return Rejected(errors);
      }
      if DayTaken(db.attendance, req.staffId.value, req.date.value, |db.attendance|) {
        return Rejected({DuplicateDay});
      }
      if !StaffOfTenant(db.staff, req, tenant) {
        return Rejected({StaffOfOtherTenant});
      }
      var row := Attendance(db.nextAttendanceId, tenant.value, req.staffId.value as nat, req.date.value,
                            ParseStatus(req.status.value).value);
      db.attendance := db.attendance + [row];
      db.nextAttendanceId := db.nextAttendanceId + 1;
      o := Created(row.id);
    }
  }

  /** When the tenant already has a row for that staff member and day, the
      call never inserts: it updates that row's status (keeping its id,
      tenant, staff and day) or is refused, and no other row changes. */
  lemma MarkExistingUpdates(t: HrTables, tenant: TenantId, req: AttendanceRequest, k: nat)
    requires req.staffId.Some? && req.date.Some?
    requires FindAttendance(t.attendance, req.staffId.value, req.date.value, tenant) == Some(k)
    ensures var r := MarkAttendanceSpec(t, Some(tenant), req);
      && (r.outcome.Updated? || r.outcome.Rejected?)
      && |r.tables.attendance| == |t.attendance| && r.tables.staff == t.staff
      && r.tables.nextAttendanceId == t.nextAttendanceId
      && (forall i :: 0 <= i < |t.attendance| && i != k ==> r.tables.attendance[i] == t.attendance[i])
      && r.tables.attendance[k] == t.attendance[k].(status := r.tables.attendance[k].status)
      && (r.outcome.Updated? ==>
            r.outcome.id == t.attendance[k].id
            && (req.status.Some? ==> StatusCode(r.tables.attendance[k].status) == req.status.value))
      && (req.status.None? ==> r.tables.attendance[k] == t.attendance[k])
  {
    var r := MarkExisting(t, Some(tenant), req, k);
    assert MarkAttendanceSpec(t, Some(tenant), req) == r;
    if r.outcome.Updated? {
      var row := t.attendance[k];
      var status := if req.status.Some? then ParseStatus(req.status.value).value else row.status;
      assert r.tables.attendance == t.attendance[k := row.(status := status)];
    }
  }

  /** Without such a row the call inserts exactly one, stamped with the
      request's tenant, or is refused and changes nothing. */
  lemma MarkNewCreates(t: HrTables, tenant: Option<TenantId>, req: AttendanceRequest)
    requires tenant.None? || req.staffId.None? || req.date.None?
      || FindAttendance(t.attendance, req.staffId.value, req.date.value, tenant.value).None?
    ensures var r := MarkAttendanceSpec(t, tenant, req);
      && (r.outcome.Created? || r.outcome.Rejected?)
      && (r.outcome.Rejected? ==> r.tables == t)
      && (r.outcome.Created? ==>
            && tenant.Some? && req.staffId.Some? && req.date.Some? && req.status.Some?
            && r.tables.attendance == t.attendance + [Attendance(t.nextAttendanceId, tenant.value,
                 req.staffId.value as nat, req.date.value, ParseStatus(req.status.value).value)]
            && r.tables.staff == t.staff)
  {
  }

  /** On the update path the row is updated exactly when the partial
      validation passes: every given field is valid, no other row has that
      staff member and day, and the staff member is the tenant's. */
  lemma MarkExistingSucceedsIff(t: HrTables, tenant: TenantId, req: AttendanceRequest, k: nat)
    requires req.staffId.Some? && req.date.Some?
    requires FindAttendance(t.attendance, req.staffId.value, req.date.value, tenant) == Some(k)
    ensures MarkAttendanceSpec(t, Some(tenant), req).outcome.Updated? <==>
      && FieldErrors(t.staff, req, true) == {}
      && !DayTaken(t.attendance, req.staffId.value, req.date.value, k)
      && StaffOfTenant(t.staff, req, Some(tenant))
    ensures MarkAttendanceSpec(t, Some(tenant), req).outcome.Rejected? <==>
      || FieldErrors(t.staff, req, true) != {}
      || DayTaken(t.attendance, req.staffId.value, req.date.value, k)
      || !StaffOfTenant(t.staff, req, Some(tenant))
  {
    assert MarkAttendanceSpec(t, Some(tenant), req) == MarkExisting(t, Some(tenant), req, k);
  }

  /** On the insert path a row is created exactly when the full validation
      passes: all three fields given and valid, the day free for that staff
      member, and the staff member the tenant's. */
  lemma MarkNewSucceedsIff(t: HrTables, tenant: Option<TenantId>, req: AttendanceRequest)
    requires tenant.None? || req.staffId.None? || req.date.None?
      || FindAttendance(t.attendance, req.staffId.value, req.date.value, tenant.value).None?
    ensures MarkAttendanceSpec(t, tenant, req).outcome.Created? <==>
      && FieldErrors(t.staff, req, false) == {}
      && !DayTaken(t.attendance, req.staffId.value, req.date.value, |t.attendance|)
      && StaffOfTenant(t.staff, req, tenant)
    ensures MarkAttendanceSpec(t, tenant, req).outcome.Rejected? <==>
      || FieldErrors(t.staff, req, false) != {}
      || DayTaken(t.attendance, req.staffId.value, req.date.value, |t.attendance|)
      || !StaffOfTenant(t.staff, req, tenant)
  {
    assert MarkAttendanceSpec(t, tenant, req) == MarkNew(t, tenant, req);
  }

  /** A refused call changes nothing; a request for a staff member of
      another tenant is refused. */
  lemma MarkRejections(t: HrTables, tenant: Option<TenantId>, req: AttendanceRequest)
    ensures MarkAttendanceSpec(t, tenant, req).outcome.Rejected? ==> MarkAttendanceSpec(t, tenant, req).tables == t
    ensures req.staffId.Some? && req.staffId.value >= 0 && req.staffId.value in t.staff
            && Some(t.staff[req.staffId.value].tenant) != tenant
            ==> MarkAttendanceSpec(t, tenant, req).outcome.Rejected?
  {
  }

  /** Marking keeps the integrity, in particular one row per staff member and
      day (and so per staff member, day and tenant). */
  lemma MarkKeepsWellFormed(t: HrTables, tenant: Option<TenantId>, req: AttendanceRequest)
    requires HrWellFormed(t)
    ensures HrWellFormed(MarkAttendanceSpec(t, tenant, req).tables)
  {
    var existing :=
      if tenant.Some? && req.staffId.Some? && req.date.Some?
      then FindAttendance(t.attendance, req.staffId.value, req.date.value, tenant.value) else None;
    match existing
    case Some(k) =>
      MarkExistingKeepsWellFormed(t, tenant, req, k);
    case None =>
      MarkNewKeepsWellFormed(t, tenant, req);
  }

  lemma MarkExistingKeepsWellFormed(t: HrTables, tenant: Option<TenantId>, req: AttendanceRequest, k: nat)
    requires HrWellFormed(t)
    requires req.staffId.Some? && req.date.Some? && k < |t.attendance|
    ensures HrWellFormed(MarkExisting(t, tenant, req, k).tables)
  {
    var r := MarkExisting(t, tenant, req, k);
    if r.outcome.Updated? {
      var row := t.attendance[k];
      var status := if req.status.Some? then ParseStatus(req.status.value).value else row.status;
      var rows := t.attendance[k := row.(status := status)];
      assert r.tables == t.(attendance := rows);
      assert forall i :: 0 <= i < |rows| ==>
        rows[i].id == t.attendance[i].id && rows[i].staff == t.attendance[i].staff
        && rows[i].date == t.attendance[i].date && rows[i].tenant == t.attendance[i].tenant;
    }
  }

  lemma MarkNewKeepsWellFormed(t: HrTables, tenant: Option<TenantId>, req: AttendanceRequest)
    requires HrWellFormed(t)
    ensures HrWellFormed(MarkNew(t, tenant, req).tables)
  {
    var r := MarkNew(t, tenant, req);
    if r.outcome.Created? {
      var n := |t.attendance|;
      var rows := r.tables.attendance;
      assert rows[..n] == t.attendance;
      assert !DayTaken(t.attendance, req.staffId.value, req.date.value, n);
      assert forall i :: 0 <= i < n ==> rows[i].staff != rows[n].staff || rows[i].date != rows[n].date;
    }
  }

  // ---------------------------------------------------------------------
  // Attendance history.

  /** `staff.attendance_records`: this staff member's rows in table order. */
  function AttendanceOf(rows: seq<Attendance>, s: StaffId): (r: seq<Attendance>)
    ensures forall a :: a in r <==> a in rows && a.staff == s
    ensures forall a :: multiset(r)[a] == if a.staff == s then multiset(rows)[a] else 0
  {
    if rows == [] then []
    else
      var rest := AttendanceOf(rows[1..], s);
      assert rows == [rows[0]] + rows[1..];
      if rows[0].staff == s then [rows[0]] + rest else rest
  }

  function AttendanceDate(a: Attendance): int { a.date }

  /** `attendance_history`: the staff member must be one of the request
      tenant's (the permission needs a tenant and the object check compares
      it); the rows are theirs, newest day first. */
  function AttendanceHistory(t: HrTables, tenant: Option<TenantId>, staffId: int): (r: Option<seq<Attendance>>)
    ensures r.Some? <==> tenant.Some? && staffId >= 0 && staffId in t.staff && t.staff[staffId].tenant == tenant.value
    ensures r.Some? ==> multiset(r.value) == multiset(AttendanceOf(t.attendance, staffId as nat))
    ensures r.Some? ==> forall i, j :: 0 <= i < j < |r.value| ==> r.value[i].date >= r.value[j].date
  {
    if tenant.Some? && staffId >= 0 && staffId in t.staff && t.staff[staffId].tenant == tenant.value then
      var h := SortDesc(AttendanceOf(t.attendance, staffId as nat), AttendanceDate);
      assert forall i, j :: 0 <= i < j < |h| ==> AttendanceDate(h[i]) >= AttendanceDate(h[j]);
      Some(h)
    else None
  }

  /** Under the integrity, a history holds at most one row per day, so its
      days are strictly decreasing. */
  lemma HistoryDaysStrictlyDecrease(t: HrTables, tenant: Option<TenantId>, staffId: int, h: seq<Attendance>)
    requires HrWellFormed(t) && AttendanceHistory(t, tenant, staffId) == Some(h)
    ensures forall i, j :: 0 <= i < j < |h| ==> h[i].date > h[j].date
  {
    var s := staffId as nat;
    assert OneRowPerDay(t.attendance);
    forall i, j | 0 <= i < j < |h|
      ensures h[i].date > h[j].date
    {
      DistinctDaysInHistory(t.attendance, s, h, i, j);
    }
  }

  lemma DistinctDaysInHistory(rows: seq<Attendance>, s: StaffId, h: seq<Attendance>, i: nat, j: nat)
    requires OneRowPerDay(rows)
    requires multiset(h) == multiset(AttendanceOf(rows, s))
    requires forall x, y :: 0 <= x < y < |h| ==> h[x].date >= h[y].date
    requires i < j < |h|
    ensures h[i].date > h[j].date
  {
    if h[i].date == h[j].date {
      assert h[i] in multiset(h) && h[j] in multiset(h);
      assert h[i] in AttendanceOf(rows, s) && h[j] in AttendanceOf(rows, s);
      var a :| 0 <= a < |rows| && rows[a] == h[i];
      var b :| 0 <= b < |rows| && rows[b] == h[j];
      assert h[i].staff == s && h[j].staff == s;
      assert a == b;
      assert h[i] == h[j];
      MultisetTwice(h, i, j);
      assert multiset(rows)[h[i]] >= 2;
      OnceInRows(rows, a);
      assert false;
    }
  }

  /** Two positions holding the same value count it twice. */
  lemma MultisetTwice<T>(h: seq<T>, i: nat, j: nat)
    requires i < j < |h| && h[i] == h[j]
    ensures multiset(h)[h[i]] >= 2
  {
    assert h == h[..i] + [h[i]] + h[i + 1..j] + [h[j]] + h[j + 1..];
  }

  /** With one row per `(staff, date)`, every row occurs once. */
  lemma OnceInRows(rows: seq<Attendance>, a: nat)
    requires OneRowPerDay(rows)
    requires a < |rows|
    ensures multiset(rows)[rows[a]] == 1
  {
    var r := rows[a];
    assert rows == rows[..a] + [r] + rows[a + 1..];
    assert forall x :: 0 <= x < a ==> rows[..a][x] != r;
    var tail := rows[a + 1..];
    assert forall y :: 0 <= y < |tail| ==> tail[y] != r;
  }

  // ---------------------------------------------------------------------
  // Serializer rules.

  /** The part of `s` after its last '/', or all of `s` when there is none:
      `s.split('/')[-1]`. */
  function AfterLastSlash(s: string): (r: string)
    ensures '/' !in r
    ensures |r| <= |s| && r == s[|s| - |r|..]
    ensures |r| < |s| ==> s[|s| - |r| - 1] == '/'
  {
    if s == [] then []
    else if s[|s| - 1] == '/' then []
    else
      var r := AfterLastSlash(s[..|s| - 1]);
      r + [s[|s| - 1]]
  }

  /** A name under any folder comes back out. */
  lemma {:induction false} AfterLastSlashOfPath(folder: string, name: string)
    requires '/' !in name
    ensures AfterLastSlash(folder + "/" + name) == name
    decreases |name|
  {
    var s := folder + "/" + name;
    if name == [] {
      assert s[|s| - 1] == '/';
    } else {
      var init := name[..|name| - 1];
      assert s[..|s| - 1] == folder + "/" + init;
      assert s[|s| - 1] == name[|name| - 1];
      AfterLastSlashOfPath(folder, init);
      assert init + [name[|name| - 1]] == name;
    }
  }

  /** `get_aadhaarFileName`: the stored file's name after its last '/', or
      None when there is no file (an empty name counts as none). */
  function AadhaarFileName(file: Option<string>): (r: Option<string>)
    ensures r.None? <==> file.None? || file.value == ""
    ensures r.Some? ==> r.value == AfterLastSlash(file.value)
  {
    if file.None? || file.value == "" then None else Some(AfterLastSlash(file.value))
  }

  lemma AadhaarFileNameExample()
    ensures AadhaarFileName(Some("staff/aadhaar/card.pdf")) == Some("card.pdf")
    ensures AadhaarFileName(None) == None
  {
    AfterLastSlashOfPath("staff/aadhaar", "card.pdf");
    assert "staff/aadhaar" + "/" + "card.pdf" == "staff/aadhaar/card.pdf";
  }

  /** `StaffSerializer.to_internal_value`'s copy: the form field
      `joining_date` is copied into `joiningDate` only when `joiningDate`
      is absent. The submitted data is a value and is not changed. */
  function CopyJoiningDate(data: map<string, string>): (r: map<string, string>)
    ensures forall k :: k in data ==> k in r && (k != "joiningDate" || "joiningDate" in data ==> r[k] == data[k])
    ensures "joiningDate" in data ==> r == data
    ensures "joining_date" in data && "joiningDate" !in data ==>
      r == data["joiningDate" := data["joining_date"]]
    ensures "joining_date" !in data ==> r == data
  {
    if "joining_date" in data && "joiningDate" !in data then data["joiningDate" := data["joining_date"]]
    else data
  }

  /** Copying twice is copying once, and afterwards `joiningDate` is present
      whenever either spelling was sent. */
  lemma CopyJoiningDateIdempotent(data: map<string, string>)
    ensures CopyJoiningDate(CopyJoiningDate(data)) == CopyJoiningDate(data)
    ensures "joiningDate" in CopyJoiningDate(data) <==> "joiningDate" in data || "joining_date" in data
  {
  }
}
