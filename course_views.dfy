/** The course endpoints: the permission table, which courses each role
    sees, the admin-only writes, and the two detail actions listing a
    course's students and enrollments. */
module CourseViews {
  import opened Common
  import opened Models
  import opened Email
  import opened Signals
  import opened Permissions
  import opened CourseSerializers

  /** `get_permissions`. */
  function PermissionFor(action: Action): Permission {
    match action
    case Create => AdminOnly
    case Update => AdminOnly
    case PartialUpdate => AdminOnly
    case Destroy => AdminOnly
    case _ => AllowAuthenticated
  }

  /** `get_queryset`: the courses the actor can address. */
  function Visible(db: Db, actor: User): set<Uuid> {
    match actor.role
    case Admin => db.courses.Keys
    case Teacher =>
      if actor.id in db.teachers then set c | c in db.courses && db.courses[c].teacher == Some(actor.id)
      else {}
    case Student =>
      if actor.id in db.students then set c | c in db.courses && HasActive(db.enrollments, actor.id, c)
      else {}
    case _ => {}
  }

  /** The student's ACTIVE rows in the course: the student queryset joins
      through them, so it holds the course once per row. */
  function ActiveRowsFor(es: map<Uuid, Enrollment>, student: Uuid, course: Uuid): set<Uuid> {
    set e | e in es && IsActiveFor(es, e, student, course)
  }

  /** The student queryset, having no `distinct()`, repeats the course, so
      the single-row lookup of `get_object` finds several rows and raises. */
  predicate JoinRepeats(db: Db, actor: User, id: Uuid) {
    actor.role == Student && |ActiveRowsFor(db.enrollments, actor.id, id)| >= 2
  }

  /** `get_object`; the object-level check of IsAuthenticated always passes.
      A repeated row ends the request in a server error. */
  function GetObject(db: Db, actor: User, id: Uuid): (r: Result<Course, Reply>)
    ensures r.Ok? <==> id in Visible(db, actor) && !JoinRepeats(db, actor, id)
    ensures r.Ok? ==> id in db.courses && r.value == db.courses[id]
    ensures r.Err? ==> r.error == (if id in Visible(db, actor) then ServerError500 else NotFound404)
  {
    if id !in Visible(db, actor) then Err(NotFound404)
    else if JoinRepeats(db, actor, id) then Err(ServerError500)
    else Ok(db.courses[id])
  }

  /** The role check both detail actions make after fetching the course. */
  function RoleCheck(db: Db, actor: User, course: Course): Option<Reply> {
    match actor.role
    case Admin => None
    case Teacher =>
      if actor.id !in db.teachers then Some(Forbidden403(TeacherProfileNotFound))
      else if course.teacher != Some(actor.id) then Some(Forbidden403(OnlyAssignedCourses))
      else None
    case _ => Some(Forbidden403(PermissionDenied))
  }

  /** The distinct students holding an ACTIVE enrollment in the course. */
  function CourseStudents(db: Db, course: Uuid): set<Uuid> {
    set e | e in db.enrollments && db.enrollments[e].course == course && db.enrollments[e].status == Active
      :: db.enrollments[e].student
  }

  /** Every enrollment of the course, whatever its status. */
  function CourseEnrollments(db: Db, course: Uuid): set<Uuid> {
    set e | e in db.enrollments && db.enrollments[e].course == course
  }

  /** The `students` action. */
  function Students(db: Db, actor: Actor, id: Uuid): (r: Result<set<Uuid>, Reply>)
    ensures !actor.Authenticated? ==> r == Err(NotAuthenticated)
    ensures r.Ok? ==>
      (id in db.courses && r.value == CourseStudents(db, id)
       && (actor.user.role == Admin || TeachesCourse(db, actor.user, db.courses[id])))
  {
    if !actor.Authenticated? then Err(NotAuthenticated)
    else
      var fetched := GetObject(db, actor.user, id);
      if fetched.Err? then Err(fetched.error)
      else
        var refused := RoleCheck(db, actor.user, fetched.value);
        if refused.Some? then Err(refused.value) else Ok(CourseStudents(db, id))
  }

  /** The `enrollments` action. */
  function Enrollments(db: Db, actor: Actor, id: Uuid): (r: Result<set<Uuid>, Reply>)
    ensures !actor.Authenticated? ==> r == Err(NotAuthenticated)
    ensures r.Ok? ==>
      (id in db.courses && r.value == CourseEnrollments(db, id)
       && (actor.user.role == Admin || TeachesCourse(db, actor.user, db.courses[id])))
  {
    if !actor.Authenticated? then Err(NotAuthenticated)
    else
      var fetched := GetObject(db, actor.user, id);
      if fetched.Err? then Err(fetched.error)
      else
        var refused := RoleCheck(db, actor.user, fetched.value);
        if refused.Some? then Err(refused.value) else Ok(CourseEnrollments(db, id))
  }

  // ---- properties ----

  lemma PermissionTable(action: Action)
    ensures PermissionFor(action) == AdminOnly <==> action in {Create, Update, PartialUpdate, Destroy}
    ensures PermissionFor(action) == AllowAuthenticated <==> action !in {Create, Update, PartialUpdate, Destroy}
    ensures !HasPermission(PermissionFor(Create), Authenticated(User(
      "00000000000000000000000000000000", "t@example.com", "T", Teacher, true, false, false, Unusable)))
  {
  }

  /** Admin sees every course, a teacher the courses they teach, a student
      the courses they hold an ACTIVE enrollment in; a missing profile or
      another role sees none. */
  lemma VisibleByRole(db: Db, actor: User, c: Uuid)
    ensures actor.role == Admin ==> (c in Visible(db, actor) <==> c in db.courses)
    ensures actor.role == Teacher ==>
      (c in Visible(db, actor) <==>
        actor.id in db.teachers && c in db.courses && TeachesCourse(db, actor, db.courses[c]))
    ensures actor.role == Student ==>
      (c in Visible(db, actor) <==>
        actor.id in db.students && c in db.courses && HasActive(db.enrollments, actor.id, c))
    ensures actor.role.OtherRole? ==> Visible(db, actor) == {}
    ensures actor.role == Teacher && actor.id !in db.teachers ==> Visible(db, actor) == {}
    ensures actor.role == Student && actor.id !in db.students ==> Visible(db, actor) == {}
  {
  }

  /** What the two detail actions answer, by role. The queryset filter runs
      first, so a teacher asking about a course they do not teach gets 404,
      and the 403 is seen only by a student who can see the course and holds
      one ACTIVE row in it; two such rows give a server error instead. */
  lemma DetailActionsByRole(db: Db, actor: User, id: Uuid)
    ensures actor.role == Admin ==>
      (Students(db, Authenticated(actor), id).Ok? <==> id in db.courses)
    ensures actor.role == Teacher ==>
      (Students(db, Authenticated(actor), id).Ok? <==> id in Visible(db, actor))
      && (Students(db, Authenticated(actor), id).Err? ==> Students(db, Authenticated(actor), id) == Err(NotFound404))
    ensures actor.role == Student ==>
      Students(db, Authenticated(actor), id) ==
        (if id !in Visible(db, actor) then Err(NotFound404)
         else if JoinRepeats(db, actor, id) then Err(ServerError500)
         else Err(Forbidden403(PermissionDenied)))
    ensures actor.role.OtherRole? ==> Students(db, Authenticated(actor), id) == Err(NotFound404)
    ensures Enrollments(db, Authenticated(actor), id) == Students(db, Authenticated(actor), id)
            || (Enrollments(db, Authenticated(actor), id).Ok? && Students(db, Authenticated(actor), id).Ok?)
  {
  }

  /** While at most one ACTIVE row links each student to each course, the
      join never repeats a course, so the server error cannot happen. */
  lemma InvariantRulesOutRepeats(db: Db, actor: User, id: Uuid)
    requires AtMostOneActive(db.enrollments)
    ensures !JoinRepeats(db, actor, id)
    ensures GetObject(db, actor, id).Ok? <==> id in Visible(db, actor)
  {
    var rows := ActiveRowsFor(db.enrollments, actor.id, id);
    if rows != {} {
      var x :| x in rows;
      assert rows == {x};
    }
  }

  /** A student holding two ACTIVE rows for one course, which the status
      update can produce, gets a server error from retrieve and from both
      detail actions. */
  lemma TwoActiveRowsGiveServerError(db: Db, actor: User, id: Uuid, a: Uuid, b: Uuid)
    requires actor.role == Student && actor.id in db.students && id in db.courses
    requires a != b && IsActiveFor(db.enrollments, a, actor.id, id) && IsActiveFor(db.enrollments, b, actor.id, id)
    ensures GetObject(db, actor, id) == Err(ServerError500)
    ensures Students(db, Authenticated(actor), id) == Err(ServerError500)
    ensures Enrollments(db, Authenticated(actor), id) == Err(ServerError500)
  {
    var rows := ActiveRowsFor(db.enrollments, actor.id, id);
    assert {a, b} <= rows;
    assert |{a, b}| == 2;
    CardinalityOfSubset({a, b}, rows);
    assert id in Visible(db, actor);
  }

  lemma {:induction false} CardinalityOfSubset(small: set<Uuid>, big: set<Uuid>)
    requires small <= big
    ensures |small| <= |big|
    decreases big
  {
    if small != {} {
      var x :| x in small;
      CardinalityOfSubset(small - {x}, big - {x});
    }
  }

  /** `students` lists exactly the students with an ACTIVE enrollment in the
      course, and they all have profiles. */
  lemma CourseStudentsAreActiveEnrollees(db: Db, course: Uuid, s: Uuid)
    requires db.Valid()
    ensures s in CourseStudents(db, course) <==> HasActive(db.enrollments, s, course)
    ensures s in CourseStudents(db, course) ==> s in db.students
  {
    if HasActive(db.enrollments, s, course) {
      var e :| e in db.enrollments && IsActiveFor(db.enrollments, e, s, course);
      assert db.enrollments[e].student in CourseStudents(db, course);
    }
  }

  /** `enrollments` lists the course's rows of either status; the counted
      ACTIVE rows are among them. */
  lemma CourseEnrollmentsAnyStatus(db: Db, course: Uuid, e: Uuid)
    ensures e in CourseEnrollments(db, course) <==> e in db.enrollments && db.enrollments[e].course == course
    ensures ActiveEnrollmentsOf(db.enrollments, course) <= CourseEnrollments(db, course)
  {
  }

  /** Distinct students of a set of ACTIVE rows of one course are as many as
      the rows, as long as no pair holds two ACTIVE rows. */
  lemma {:induction false} StudentsOfActiveRows(es: map<Uuid, Enrollment>, course: Uuid, rows: set<Uuid>)
    requires AtMostOneActive(es)
    requires forall e :: e in rows ==> e in es && es[e].course == course && es[e].status == Active
    ensures |set e | e in rows :: es[e].student| == |rows|
    decreases rows
  {
    if rows != {} {
      var x :| x in rows;
      var rest := rows - {x};
      StudentsOfActiveRows(es, course, rest);
      var restStudents := set e | e in rest :: es[e].student;
      assert (set e | e in rows :: es[e].student) == restStudents + {es[x].student};
      assert es[x].student !in restStudents;
    }
  }

  /** While the at-most-one-ACTIVE invariant holds, the enrolled count a
      course shows equals the number of students `students` lists. */
  lemma EnrolledCountMatchesStudents(db: Db, course: Uuid)
    requires AtMostOneActive(db.enrollments)
    ensures EnrolledCount(db, course) == |CourseStudents(db, course)|
  {
    var rows := ActiveEnrollmentsOf(db.enrollments, course);
    StudentsOfActiveRows(db.enrollments, course, rows);
    assert CourseStudents(db, course) == set e | e in rows :: db.enrollments[e].student;
  }

  // ---- the admin-only writes ----

  /** POST. */
  method CreateView(st: Store, actor: Actor, input: CourseInput, id: Uuid, d: Delivery, now: Instant)
    returns (reply: Reply)
    requires st.Valid() && id !in st.courses
    modifies st
    ensures st.Valid()
    ensures !actor.Authenticated? ==> reply == NotAuthenticated
    ensures reply == Created201 <==>
      HasPermission(AdminOnly, actor) && CourseErrors(input, false) == map[]
    ensures reply != Created201 ==> st.Snapshot() == old(st.Snapshot())
    ensures reply == Created201 ==>
      && input.title.Some? && input.description.Some? && input.durationWeeks.Some? && input.schedule.Some?
      && var c := Course(input.title.value, input.description.value, input.durationWeeks.value,
                         input.schedule.value, ResolveTeacher(old(st.teachers), input.teacherId));
         st.Snapshot() == old(st.Snapshot()).(courses := old(st.courses)[id := c],
           notifications := old(st.notifications)
             + Logged(if c.teacher.Some? then AssignmentAttempts(old(st.users)[c.teacher.value], c) else [], d, now))
  {
    if !actor.Authenticated? {
      return NotAuthenticated;
    }
    if !HasPermission(AdminOnly, actor) {
      return Forbidden403(PermissionDenied);
    }
    if CourseErrors(input, false) != map[] {
      return BadRequest400(InvalidInput);
    }
    CourseErrorsFull(input);
    var _ := CreateCourse(st, id, input.title.value, input.description.value, input.durationWeeks.value,
                          input.schedule.value, input.teacherId, d, now);
    reply := Created201;
  }

  /** PUT and PATCH; PATCH validates only the supplied fields. */
  method UpdateView(st: Store, actor: Actor, action: Action, id: Uuid, input: CourseInput, d: Delivery, now: Instant)
    returns (reply: Reply)
    requires st.Valid() && (action == Update || action == PartialUpdate)
    modifies st
    ensures st.Valid()
    ensures !actor.Authenticated? ==> reply == NotAuthenticated
    ensures reply == Ok200 <==>
      HasPermission(AdminOnly, actor) && id in old(st.courses) && CourseErrors(input, action == PartialUpdate) == map[]
    ensures reply != Ok200 ==> st.Snapshot() == old(st.Snapshot())
    ensures reply == Ok200 ==>
      var c := UpdatedCourse(old(st.courses)[id], input, old(st.teachers));
      st.Snapshot() == old(st.Snapshot()).(courses := old(st.courses)[id := c],
        notifications := old(st.notifications) + Logged(CourseSignal(old(st.Snapshot()), id, c), d, now))
  {
    if !actor.Authenticated? {
      return NotAuthenticated;
    }
    if !HasPermission(AdminOnly, actor) {
      return Forbidden403(PermissionDenied);
    }
    var fetched := GetObject(st.Snapshot(), actor.user, id);
    if fetched.Err? {
      return fetched.error;
    }
    if CourseErrors(input, action == PartialUpdate) != map[] {
      return BadRequest400(InvalidInput);
    }
    var _ := UpdateCourse(st, id, input, d, now);
    reply := Ok200;
  }

  /** DELETE: the course goes, and its enrollments with it. */
  method DestroyView(st: Store, actor: Actor, id: Uuid) returns (reply: Reply)
    requires st.Valid()
    modifies st
    ensures st.Valid()
    ensures !actor.Authenticated? ==> reply == NotAuthenticated
    ensures reply == NoContent204 <==> HasPermission(AdminOnly, actor) && id in old(st.courses)
    ensures reply != NoContent204 ==> st.Snapshot() == old(st.Snapshot())
    ensures reply == NoContent204 ==> st.Snapshot() == DeleteCourse(old(st.Snapshot()), id)
  {
    if !actor.Authenticated? {
      return NotAuthenticated;
    }
    if !HasPermission(AdminOnly, actor) {
      return Forbidden403(PermissionDenied);
    }
    var fetched := GetObject(st.Snapshot(), actor.user, id);
    if fetched.Err? {
      return fetched.error;
    }
    DeleteCourseCascades(st.Snapshot(), id);
    var after := DeleteCourse(st.Snapshot(), id);
    st.courses, st.enrollments := after.courses, after.enrollments;
    reply := NoContent204;
  }
}
