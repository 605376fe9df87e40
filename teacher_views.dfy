/** The teacher-profile endpoints: create is switched off, the permission
    table, which profiles each role sees, and the `courses`, `students` and
    `enrollments` actions of one teacher. */
module TeacherViews {
  import opened Common
  import opened Models
  import opened Permissions
  import StudentViews
  import EnrollmentViews
  import CourseViews

  /** `get_permissions`. */
  function PermissionFor(action: Action): Permission {
    match action
    case List => AllowAuthenticated
    case Create => AdminOnly
    case Destroy => AdminOnly
    case _ => TeacherOwnerOrAdmin
  }

  /** POST: the permission check runs first, then the handler refuses the
      method; nothing is ever written. */
  function Create(actor: Actor): (reply: Reply)
    ensures reply != Created201
    ensures HasPermission(AdminOnly, actor) ==> reply == MethodNotAllowed405
  {
    if !actor.Authenticated? then NotAuthenticated
    else if !HasPermission(PermissionFor(Action.Create), actor) then Forbidden403(PermissionDenied)
    else MethodNotAllowed405
  }

  /** `get_queryset`. */
  function Visible(db: Db, actor: Actor): set<Uuid> {
    if !actor.Authenticated? then {}
    else
      var u := actor.user;
      match u.role
      case Admin => db.teachers.Keys
      case Teacher => if u.id in db.teachers then {u.id} else {}
      case _ => {}
  }

  /** `get_object` followed by IsTeacherOwnerOrAdmin on the profile. */
  function GetObject(db: Db, actor: User, id: Uuid): (r: Result<TeacherProfile, Reply>)
    ensures r.Ok? ==> id in db.teachers && r.value == db.teachers[id]
    ensures r.Err? ==> r.error == NotFound404 || r.error == Forbidden403(PermissionDenied)
  {
    if id !in Visible(db, Authenticated(actor)) then Err(NotFound404)
    else if !IsTeacherOwnerOrAdminObject(actor, ProfileOf(id)) then Err(Forbidden403(PermissionDenied))
    else Ok(db.teachers[id])
  }

  /** The teacher's courses. */
  function TeacherCourses(db: Db, teacher: Uuid): set<Uuid> {
    set c | c in db.courses && db.courses[c].teacher == Some(teacher)
  }

  /** The distinct students with an ACTIVE enrollment in the teacher's courses. */
  function TeacherStudents(db: Db, teacher: Uuid): set<Uuid> {
    set e | e in db.enrollments && db.enrollments[e].status == Active && db.enrollments[e].course in db.courses
            && db.courses[db.enrollments[e].course].teacher == Some(teacher)
      :: db.enrollments[e].student
  }

  /** Every enrollment in the teacher's courses, whatever its status. */
  function TeacherEnrollments(db: Db, teacher: Uuid): set<Uuid> {
    set e | e in db.enrollments && db.enrollments[e].course in db.courses
            && db.courses[db.enrollments[e].course].teacher == Some(teacher)
  }

  /** One of the three detail actions: authentication, the fetch, then the
      listing the action computes for the fetched teacher. */
  function Detail(db: Db, actor: Actor, id: Uuid, listing: set<Uuid>): (r: Result<set<Uuid>, Reply>)
    ensures !actor.Authenticated? ==> r == Err(NotAuthenticated)
    ensures r.Ok? ==> r.value == listing && id in Visible(db, actor)
  {
    if !actor.Authenticated? then Err(NotAuthenticated)
    else
      var fetched := GetObject(db, actor.user, id);
      if fetched.Err? then Err(fetched.error) else Ok(listing)
  }

  function Courses(db: Db, actor: Actor, id: Uuid): Result<set<Uuid>, Reply> {
    Detail(db, actor, id, TeacherCourses(db, id))
  }

  function Students(db: Db, actor: Actor, id: Uuid): Result<set<Uuid>, Reply> {
    Detail(db, actor, id, TeacherStudents(db, id))
  }

  function Enrollments(db: Db, actor: Actor, id: Uuid): Result<set<Uuid>, Reply> {
    Detail(db, actor, id, TeacherEnrollments(db, id))
  }

  // ---- properties ----

  lemma PermissionTable(action: Action)
    ensures PermissionFor(action) == AllowAuthenticated <==> action == List
    ensures PermissionFor(action) == AdminOnly <==> action == Action.Create || action == Destroy
    ensures PermissionFor(action) == TeacherOwnerOrAdmin <==> action !in {List, Action.Create, Destroy}
  {
  }

  /** Create answers 401 to the anonymous user, 403 to every non-admin and
      405 to an admin: it never succeeds. */
  lemma CreateAlwaysRefused(actor: Actor)
    ensures !actor.Authenticated? ==> Create(actor) == NotAuthenticated
    ensures actor.Authenticated? && actor.user.role != Admin ==> Create(actor) == Forbidden403(PermissionDenied)
    ensures actor.Authenticated? && actor.user.role == Admin ==> Create(actor) == MethodNotAllowed405
  {
  }

  /** Admin sees every teacher profile, a teacher only their own, anyone
      else none. */
  lemma VisibleByRole(db: Db, actor: User, t: Uuid)
    ensures actor.role == Admin ==> (t in Visible(db, Authenticated(actor)) <==> t in db.teachers)
    ensures actor.role == Teacher ==> (t in Visible(db, Authenticated(actor)) <==> t == actor.id && t in db.teachers)
    ensures actor.role != Admin && actor.role != Teacher ==> Visible(db, Authenticated(actor)) == {}
    ensures Visible(db, Anonymous) == {}
  {
  }

  /** A visible profile always passes IsTeacherOwnerOrAdmin, so the detail
      actions answer 404 or succeed, never 403. */
  lemma VisibleProfilesAreNeverForbidden(db: Db, actor: User, id: Uuid)
    ensures GetObject(db, actor, id).Ok? <==> id in Visible(db, Authenticated(actor))
    ensures GetObject(db, actor, id).Err? ==> GetObject(db, actor, id) == Err(NotFound404)
  {
  }

  /** A student belongs to `students` iff IsStudentOwnerOrTeacherOrAdmin lets
      the teacher see them. */
  lemma TeacherStudentsAreTaughtStudents(db: Db, teacher: Uuid, s: Uuid)
    ensures s in TeacherStudents(db, teacher) <==> TeachesStudent(db, teacher, s)
  {
    if TeachesStudent(db, teacher, s) {
      var e :| e in db.enrollments && db.enrollments[e].student == s
        && db.enrollments[e].status == Active && db.enrollments[e].course in db.courses
        && db.courses[db.enrollments[e].course].teacher == Some(teacher);
      assert db.enrollments[e].student in TeacherStudents(db, teacher);
    }
  }

  /** For a teacher looking at their own profile, the three actions list
      exactly what the course, student and enrollment querysets let that
      teacher see. */
  lemma OwnListingsMatchOtherQuerysets(db: Db, actor: User)
    requires db.Valid() && actor.role == Teacher && actor.id in db.teachers
    ensures Courses(db, Authenticated(actor), actor.id) == Ok(CourseViews.Visible(db, actor))
    ensures Students(db, Authenticated(actor), actor.id) == Ok(StudentViews.Visible(db, Authenticated(actor)))
    ensures Enrollments(db, Authenticated(actor), actor.id) == Ok(EnrollmentViews.Visible(db, actor))
  {
    var sv := StudentViews.Visible(db, Authenticated(actor));
    forall s ensures s in TeacherStudents(db, actor.id) <==> s in sv {
      TeacherStudentsAreTaughtStudents(db, actor.id, s);
    }
    assert TeacherStudents(db, actor.id) == sv;
  }
}
