/** The enrollment endpoints: which permission guards each action, which
    rows each role sees, the role gate in front of create, and destroy as
    the ACTIVE to DROPPED transition with the students' seven-day window. */
module EnrollmentViews {
  import opened Common
  import opened Models
  import opened Email
  import opened Signals
  import opened Permissions
  import opened EnrollmentSerializers

  /** `get_permissions`. */
  function PermissionFor(action: Action): Permission {
    match action
    case Create => ManageEnrollment
    case Destroy => ManageEnrollment
    case Update => ManageEnrollment
    case PartialUpdate => ManageEnrollment
    case List => AllowAuthenticated
    case _ => ViewEnrollment
  }

  /** The object-level check of the permission guarding `action`. */
  predicate ObjectAllowed(db: Db, actor: User, action: Action, e: Enrollment)
    requires e.course in db.courses
  {
    match PermissionFor(action)
    case ManageEnrollment => CanManageEnrollmentObject(db, actor, action, e)
    case ViewEnrollment => CanViewEnrollmentObject(db, actor, e)
    case _ => true
  }

  /** `get_queryset`: the enrollments the actor can address. */
  function Visible(db: Db, actor: User): set<Uuid> {
    match actor.role
    case Admin => db.enrollments.Keys
    case Teacher =>
      if actor.id in db.teachers then
        set e | e in db.enrollments && db.enrollments[e].course in db.courses
                && db.courses[db.enrollments[e].course].teacher == Some(actor.id)
      else {}
    case Student =>
      if actor.id in db.students then set e | e in db.enrollments && db.enrollments[e].student == actor.id
      else {}
    case _ => {}
  }

  /** The role gate at the head of `create`: None lets the request through. */
  function CreateGate(db: Db, actor: User, courseId: Option<Uuid>): Option<Reply> {
    match actor.role
    case Admin => None
    case Teacher =>
      if actor.id !in db.teachers then Some(Forbidden403(TeacherProfileNotFound))
      else if !(courseId.Some? && courseId.value in db.courses && db.courses[courseId.value].teacher == Some(actor.id))
      then Some(Forbidden403(OnlyAssignedCourses))
      else None
    case _ => Some(Forbidden403(StudentsCannotCreate))
  }

  /** DRF's `get_object`: a row outside the queryset is not found; one the
      object-level check refuses is forbidden. */
  function GetObject(db: Db, actor: User, action: Action, id: Uuid): (r: Result<Enrollment, Reply>)
    requires db.Valid()
    ensures r.Ok? ==> id in db.enrollments && r.value == db.enrollments[id] && id in Visible(db, actor)
    ensures r.Err? ==> r.error == NotFound404 || r.error == Forbidden403(PermissionDenied)
  {
    if id !in Visible(db, actor) then Err(NotFound404)
    else if !ObjectAllowed(db, actor, action, db.enrollments[id]) then Err(Forbidden403(PermissionDenied))
    else Ok(db.enrollments[id])
  }

  const DropWindow: int := 7 * MicrosPerDay

  /** The checks `destroy` makes on the fetched row, in source order: the
      students' window first, then the status. None lets the drop happen. */
  function DropCheck(role: Role, e: Enrollment, now: Instant): Option<Reply> {
    if role == Student && e.createdAt < now - DropWindow then Some(BadRequest400(DropWindowExpired))
    else if e.status != Active then Some(BadRequest400(OnlyActiveCanBeDropped))
    else None
  }

  /** `destroy` as the source has it: the module imports `timezone` from the
      standard `time` module, where it is an int, so for a student the call
      `timezone.now()` raises and the request ends in a server error. Other
      roles never evaluate it. */
  function DropCheckAsWritten(role: Role, e: Enrollment): Option<Reply> {
    if role == Student then Some(ServerError500)
    else if e.status != Active then Some(BadRequest400(OnlyActiveCanBeDropped))
    else None
  }

  // ---- properties ----

  /** As written, a student's drop of an ACTIVE row inside the window, which
      the seven-day rule allows, ends in a server error; for every other
      role the written and the intended checks agree. */
  lemma StudentDropFailsAsWritten(e: Enrollment, now: Instant, role: Role)
    requires e.status == Active && e.createdAt >= now - DropWindow
    ensures DropCheckAsWritten(Student, e) == Some(ServerError500)
    ensures DropCheck(Student, e, now).None?
    ensures role != Student ==> DropCheckAsWritten(role, e) == DropCheck(role, e, now)
  {
  }

  /** A student's drop is refused for the window iff the row was created
      strictly before `now` minus seven days; exactly seven days is allowed. */
  lemma StudentDropWindow(e: Enrollment, now: Instant)
    ensures DropCheck(Student, e, now) == Some(BadRequest400(DropWindowExpired)) <==> e.createdAt < now - DropWindow
    ensures e.status == Active && e.createdAt == now - DropWindow ==> DropCheck(Student, e, now).None?
    ensures e.status == Active && e.createdAt == now - 8 * MicrosPerDay ==> DropCheck(Student, e, now).Some?
    ensures e.status == Active && e.createdAt == now - 6 * MicrosPerDay ==> DropCheck(Student, e, now).None?
  {
  }

  /** The window is checked before the status: a student on an expired
      DROPPED row gets the window error. */
  lemma WindowCheckedBeforeStatus(e: Enrollment, now: Instant)
    requires e.status == Dropped && e.createdAt < now - DropWindow
    ensures DropCheck(Student, e, now) == Some(BadRequest400(DropWindowExpired))
  {
  }

  /** Admins and teachers are never held to the window: for them only the
      status decides, at any elapsed time. */
  lemma StaffHaveNoWindow(role: Role, e: Enrollment, now: Instant, later: Instant)
    requires role != Student
    ensures DropCheck(role, e, now) == DropCheck(role, e, later)
    ensures DropCheck(role, e, now).None? <==> e.status == Active
  {
  }

  /** A non-ACTIVE row can never be dropped, whoever asks and whenever. */
  lemma DroppedRowCannotBeDropped(role: Role, e: Enrollment, now: Instant)
    requires e.status == Dropped
    ensures DropCheck(role, e, now).Some? && DropCheck(role, e, now).value.BadRequest400?
  {
  }

  /** Create is refused before any validation for students and every other
      non-staff role, and for a teacher without a profile; a teacher gets
      through only for a course they teach. */
  lemma CreateGateByRole(db: Db, actor: User, courseId: Option<Uuid>)
    ensures actor.role == Admin ==> CreateGate(db, actor, courseId).None?
    ensures actor.role != Admin && actor.role != Teacher ==>
      CreateGate(db, actor, courseId) == Some(Forbidden403(StudentsCannotCreate))
    ensures actor.role == Teacher && actor.id !in db.teachers ==>
      CreateGate(db, actor, courseId) == Some(Forbidden403(TeacherProfileNotFound))
    ensures actor.role == Teacher ==>
      (CreateGate(db, actor, courseId).None? <==>
        actor.id in db.teachers && courseId.Some? && courseId.value in db.courses
        && db.courses[courseId.value].teacher == Some(actor.id))
  {
  }

  /** The permission table: the four writing actions use CanManageEnrollment,
      list needs only authentication, anything else uses CanViewEnrollment. */
  lemma PermissionTable(action: Action)
    ensures PermissionFor(action) == ManageEnrollment <==> action in {Create, Destroy, Update, PartialUpdate}
    ensures PermissionFor(action) == AllowAuthenticated <==> action == List
    ensures PermissionFor(action) == ViewEnrollment <==> action !in {Create, Destroy, Update, PartialUpdate, List}
  {
  }

  /** The queryset and the view permission agree: in a consistent store an
      enrollment is visible to an actor iff CanViewEnrollment lets that
      actor see it. An admin sees all, a teacher the rows of courses they
      teach, a student their own, anyone else nothing. */
  lemma VisibleIffViewable(db: Db, actor: User, e: Uuid)
    requires db.Valid() && e in db.enrollments
    ensures e in Visible(db, actor) <==> CanViewEnrollmentObject(db, actor, db.enrollments[e])
  {
  }

  /** A teacher or student without a profile sees no enrollment. */
  lemma MissingProfileSeesNothing(db: Db, actor: User)
    ensures actor.role == Teacher && actor.id !in db.teachers ==> Visible(db, actor) == {}
    ensures actor.role == Student && actor.id !in db.students ==> Visible(db, actor) == {}
  {
  }

  // ---- the endpoints ----

  /** POST: authentication, the role gate, validation, then the insert. */
  method CreateView(st: Store, actor: Actor, input: EnrollmentInput, id: Uuid, d: Delivery, now: Instant)
    returns (reply: Reply)
    requires st.Valid() && id !in st.enrollments
    modifies st
    ensures st.Valid()
    ensures !actor.Authenticated? ==> reply == NotAuthenticated
    ensures actor.Authenticated? && CreateGate(old(st.Snapshot()), actor.user, input.courseId).Some? ==>
      reply == CreateGate(old(st.Snapshot()), actor.user, input.courseId).value
    ensures (actor.Authenticated? && CreateGate(old(st.Snapshot()), actor.user, input.courseId).None?
             && Validate(old(st.Snapshot()), input).Err?) ==>
      reply == BadRequest400(Validate(old(st.Snapshot()), input).error)
    ensures reply == Created201 <==>
      actor.Authenticated? && CreateGate(old(st.Snapshot()), actor.user, input.courseId).None?
      && Validate(old(st.Snapshot()), input).Ok?
    ensures reply != Created201 ==> st.Snapshot() == old(st.Snapshot())
    ensures reply == Created201 ==>
      var (s, c) := Validate(old(st.Snapshot()), input).value;
      var e := NewEnrollment(s, c, input.status, now);
      st.Snapshot() == old(st.Snapshot()).(enrollments := old(st.enrollments)[id := e],
        notifications := old(st.notifications) + Logged(EnrollmentSignal(old(st.Snapshot()), id, e), d, now))
    ensures AtMostOneActive(old(st.enrollments)) ==> AtMostOneActive(st.enrollments)
  {
    if !actor.Authenticated? {
      return NotAuthenticated;
    }
    var gate := CreateGate(st.Snapshot(), actor.user, input.courseId);
    if gate.Some? {
      return gate.value;
    }
    var checked := Validate(st.Snapshot(), input);
    if checked.Err? {
      return BadRequest400(checked.error);
    }
    if AtMostOneActive(st.enrollments) {
      ValidatedInsertKeepsAtMostOneActive(st.Snapshot(), input, id, now);
    }
    var (s, c) := checked.value;
    var _ := CreateEnrollment(st, s, c, input.status, id, d, now);
    reply := Created201;
  }

  /** DELETE: fetch the row, apply the drop checks, and write DROPPED; the
      row itself is kept. */
  method DestroyView(st: Store, actor: Actor, id: Uuid, d: Delivery, now: Instant) returns (reply: Reply)
    requires st.Valid()
    modifies st
    ensures st.Valid()
    ensures !actor.Authenticated? ==> reply == NotAuthenticated
    ensures actor.Authenticated? && GetObject(old(st.Snapshot()), actor.user, Destroy, id).Err? ==>
      reply == GetObject(old(st.Snapshot()), actor.user, Destroy, id).error
    ensures (actor.Authenticated? && GetObject(old(st.Snapshot()), actor.user, Destroy, id).Ok?
             && DropCheck(actor.user.role, old(st.enrollments)[id], now).Some?) ==>
      reply == DropCheck(actor.user.role, old(st.enrollments)[id], now).value
    ensures reply == NoContent204 <==>
      actor.Authenticated? && GetObject(old(st.Snapshot()), actor.user, Destroy, id).Ok?
      && DropCheck(actor.user.role, old(st.enrollments)[id], now).None?
    ensures reply != NoContent204 ==> st.Snapshot() == old(st.Snapshot())
    ensures reply == NoContent204 ==>
      var e := old(st.enrollments)[id].(status := Dropped);
      st.Snapshot() == old(st.Snapshot()).(enrollments := old(st.enrollments)[id := e],
        notifications := old(st.notifications) + Logged(EnrollmentSignal(old(st.Snapshot()), id, e), d, now))
    ensures AtMostOneActive(old(st.enrollments)) ==> AtMostOneActive(st.enrollments)
  {
    if !actor.Authenticated? {
      return NotAuthenticated;
    }
    var fetched := GetObject(st.Snapshot(), actor.user, Destroy, id);
    if fetched.Err? {
      return fetched.error;
    }
    var enrollment := fetched.value;
    var refused := DropCheck(actor.user.role, enrollment, now);
    if refused.Some? {
      return refused.value;
    }
    if AtMostOneActive(st.enrollments) {
      DroppingKeepsAtMostOneActive(st.enrollments, id);
    }
    enrollment := enrollment.(status := Dropped);
    SaveEnrollment(st, id, enrollment, d, now);
    reply := NoContent204;
  }

  /** PUT and PATCH: fetch the row, then the status-only update. */
  method UpdateView(st: Store, actor: Actor, action: Action, id: Uuid, status: Option<EnrollmentStatus>,
                d: Delivery, now: Instant) returns (reply: Reply)
    requires st.Valid() && (action == Update || action == PartialUpdate)
    modifies st
    ensures st.Valid()
    ensures !actor.Authenticated? ==> reply == NotAuthenticated
    ensures actor.Authenticated? && GetObject(old(st.Snapshot()), actor.user, action, id).Err? ==>
      reply == GetObject(old(st.Snapshot()), actor.user, action, id).error
    ensures reply == Ok200 <==> actor.Authenticated? && GetObject(old(st.Snapshot()), actor.user, action, id).Ok?
    ensures reply != Ok200 ==> st.Snapshot() == old(st.Snapshot())
    ensures reply == Ok200 ==>
      var e := old(st.enrollments)[id].(status := status.GetOr(old(st.enrollments)[id].status));
      st.Snapshot() == old(st.Snapshot()).(enrollments := old(st.enrollments)[id := e],
        notifications := old(st.notifications) + Logged(EnrollmentSignal(old(st.Snapshot()), id, e), d, now))
  {
    if !actor.Authenticated? {
      return NotAuthenticated;
    }
    var fetched := GetObject(st.Snapshot(), actor.user, action, id);
    if fetched.Err? {
      return fetched.error;
    }
    var _ := UpdateEnrollmentStatus(st, id, status, d, now);
    reply := Ok200;
  }

  /** GET on one row. */
  function RetrieveView(db: Db, actor: Actor, id: Uuid): (r: Result<Enrollment, Reply>)
    requires db.Valid()
    ensures !actor.Authenticated? ==> r == Err(NotAuthenticated)
    ensures r.Ok? ==>
      (id in db.enrollments && r.value == db.enrollments[id]
       && CanViewEnrollmentObject(db, actor.user, r.value))
  {
    if !actor.Authenticated? then Err(NotAuthenticated) else GetObject(db, actor.user, Retrieve, id)
  }
}
