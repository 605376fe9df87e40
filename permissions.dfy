/** The access predicates. Each permission class has a request-level check
    (`has_permission`: may this actor call the action at all) and an
    object-level check (`has_object_permission`: may it act on this row).
    Lookups that fail (a teacher or student without a profile) deny. */
module Permissions {
  import opened Common
  import opened Models

  /** `request.user`: the anonymous user, or an authenticated user row. */
  datatype Actor = Anonymous | Authenticated(user: User)

  /** The view action a request is routed to. */
  datatype Action = List | Create | Retrieve | Update | PartialUpdate | Destroy | Extra(name: string)

  /** The permission classes of the system and DRF's `IsAuthenticated`. */
  datatype Permission =
    | AllowAuthenticated
    | AdminOnly
    | TeacherOnly
    | StudentOnly
    | OwnerOrAdmin
    | TeacherOwnerOrAdmin
    | StudentOwnerOrTeacherOrAdmin
    | ManageCourse
    | ManageEnrollment
    | ViewEnrollment

  /** An object asked about by the owner checks: a profile (it has a
      `user`), a user row, a row of another model (it has an `id`), or an
      object with neither attribute. */
  datatype Target = ProfileOf(owner: Uuid) | UserRow(id: Uuid) | OtherRow(id: Uuid) | Keyless

  predicate HasRole(a: Actor, r: Role) {
    a.Authenticated? && a.user.role == r
  }

  /** `has_permission`. The three role classes demand their role; every other
      class demands only an authenticated user. */
  predicate HasPermission(p: Permission, a: Actor) {
    match p
    case AdminOnly => HasRole(a, Admin)
    case TeacherOnly => HasRole(a, Teacher)
    case StudentOnly => HasRole(a, Student)
    case _ => a.Authenticated?
  }

  /** The teacher profile of this user exists. */
  predicate HasTeacherProfile(db: Db, u: User) {
    u.id in db.teachers
  }

  /** `obj.course.teacher == teacher_profile` after a successful profile lookup. */
  predicate TeachesCourse(db: Db, teacher: User, course: Course) {
    HasTeacherProfile(db, teacher) && course.teacher == Some(teacher.id)
  }

  predicate IsOwnerOrAdminUserObject(actor: User, obj: Target) {
    if actor.role == Admin then true
    else match obj
      case ProfileOf(owner) => owner == actor.id
      case UserRow(id) => id == actor.id
      case OtherRow(id) => id == actor.id
      case Keyless => false
  }

  /** A teacher owns its profile, and its own user row (`obj == request.user`
      compares model and primary key). */
  predicate IsTeacherOwnerOrAdminObject(actor: User, obj: Target) {
    match actor.role
    case Admin => true
    case Teacher => OwnsTarget(actor, obj)
    case _ => false
  }

  predicate OwnsTarget(actor: User, obj: Target) {
    match obj
    case ProfileOf(owner) => owner == actor.id
    case UserRow(id) => id == actor.id
    case _ => false
  }

  /** The student profile an object denotes for the teacher branch: a profile
      is itself, a user row is looked up (and may be missing). */
  function StudentOf(db: Db, obj: Target): Option<Uuid> {
    match obj
    case ProfileOf(owner) => Some(owner)
    case UserRow(id) => if id in db.students then Some(id) else None
    case _ => None
  }

  /** The student has an ACTIVE enrollment in a course this teacher teaches. */
  predicate TeachesStudent(db: Db, teacher: Uuid, student: Uuid) {
    exists e :: e in db.enrollments && db.enrollments[e].student == student
      && db.enrollments[e].status == Active && db.enrollments[e].course in db.courses
      && db.courses[db.enrollments[e].course].teacher == Some(teacher)
  }

  predicate IsStudentOwnerOrTeacherOrAdminObject(db: Db, actor: User, obj: Target) {
    match actor.role
    case Admin => true
    case Student => OwnsTarget(actor, obj)
    case Teacher =>
      HasTeacherProfile(db, actor) && StudentOf(db, obj).Some? && TeachesStudent(db, actor.id, StudentOf(db, obj).value)
    case _ => false
  }

  predicate CanManageCourseObject(db: Db, actor: User, course: Course) {
    match actor.role
    case Admin => true
    case Teacher => TeachesCourse(db, actor, course)
    case _ => false
  }

  predicate CanManageEnrollmentObject(db: Db, actor: User, action: Action, e: Enrollment)
    requires e.course in db.courses
  {
    match actor.role
    case Admin => true
    case Teacher => TeachesCourse(db, actor, db.courses[e.course])
    case Student => action == Destroy && e.student == actor.id
    case _ => false
  }

  predicate CanViewEnrollmentObject(db: Db, actor: User, e: Enrollment)
    requires e.course in db.courses
  {
    match actor.role
    case Admin => true
    case Student => e.student == actor.id
    case Teacher => TeachesCourse(db, actor, db.courses[e.course])
    case _ => false
  }

  // ---- properties ----

  /** The three role classes hold iff the user is authenticated and has the
      matching role; every other class needs authentication only. */
  lemma RoleClassesIff(a: Actor)
    ensures HasPermission(AdminOnly, a) <==> a.Authenticated? && a.user.role == Admin
    ensures HasPermission(TeacherOnly, a) <==> a.Authenticated? && a.user.role == Teacher
    ensures HasPermission(StudentOnly, a) <==> a.Authenticated? && a.user.role == Student
    ensures forall p :: p != AdminOnly && p != TeacherOnly && p != StudentOnly ==>
      (HasPermission(p, a) <==> a.Authenticated?)
    ensures !HasPermission(AdminOnly, Anonymous)
  {
  }

  /** ADMIN passes every object-level check. */
  lemma AdminPassesEveryObjectCheck(db: Db, actor: User, obj: Target, course: Course, action: Action, e: Enrollment)
    requires actor.role == Admin && e.course in db.courses
    ensures IsOwnerOrAdminUserObject(actor, obj)
    ensures IsTeacherOwnerOrAdminObject(actor, obj)
    ensures IsStudentOwnerOrTeacherOrAdminObject(db, actor, obj)
    ensures CanManageCourseObject(db, actor, course)
    ensures CanManageEnrollmentObject(db, actor, action, e)
    ensures CanViewEnrollmentObject(db, actor, e)
  {
  }

  /** A role outside the three listed ones fails every object-level check
      that branches on the role. */
  lemma OtherRoleDeniedEveryObjectCheck(db: Db, actor: User, obj: Target, course: Course, action: Action, e: Enrollment)
    requires actor.role.OtherRole? && e.course in db.courses
    ensures !IsTeacherOwnerOrAdminObject(actor, obj)
    ensures !IsStudentOwnerOrTeacherOrAdminObject(db, actor, obj)
    ensures !CanManageCourseObject(db, actor, course)
    ensures !CanManageEnrollmentObject(db, actor, action, e)
    ensures !CanViewEnrollmentObject(db, actor, e)
  {
  }

  /** IsOwnerOrAdminUser for a non-admin: the `user` of a profile decides,
      else the `id`, else the answer is no. */
  lemma OwnerCheckOrder(actor: User, obj: Target)
    requires actor.role != Admin
    ensures obj.ProfileOf? ==> (IsOwnerOrAdminUserObject(actor, obj) <==> obj.owner == actor.id)
    ensures (obj.UserRow? || obj.OtherRow?) ==> (IsOwnerOrAdminUserObject(actor, obj) <==> obj.id == actor.id)
    ensures obj.Keyless? ==> !IsOwnerOrAdminUserObject(actor, obj)
  {
  }

  /** For a teacher, managing a course and viewing or managing an enrollment
      all come down to teaching the course; without a profile all fail. */
  lemma TeacherChecksAreAboutTeaching(db: Db, actor: User, course: Course, action: Action, e: Enrollment)
    requires actor.role == Teacher && e.course in db.courses
    ensures CanManageCourseObject(db, actor, course) <==> actor.id in db.teachers && course.teacher == Some(actor.id)
    ensures CanViewEnrollmentObject(db, actor, e) <==> actor.id in db.teachers && db.courses[e.course].teacher == Some(actor.id)
    ensures CanManageEnrollmentObject(db, actor, action, e) <==> CanViewEnrollmentObject(db, actor, e)
    ensures actor.id !in db.teachers ==> !CanManageCourseObject(db, actor, course) && !CanViewEnrollmentObject(db, actor, e)
  {
  }

  /** A student may manage an enrollment only to destroy it, and only its own. */
  lemma StudentManagesOnlyOwnDestroy(db: Db, actor: User, action: Action, e: Enrollment)
    requires actor.role == Student && e.course in db.courses
    ensures CanManageEnrollmentObject(db, actor, action, e) <==> action == Destroy && e.student == actor.id
    ensures CanManageEnrollmentObject(db, actor, action, e) ==> CanViewEnrollmentObject(db, actor, e)
  {
  }

  /** A teacher passes IsStudentOwnerOrTeacherOrAdmin on a student profile iff
      that student holds an ACTIVE enrollment in one of the teacher's courses;
      a teacher without a profile, or a user row without a student profile,
      is refused. */
  lemma TeacherSeesOnlyOwnStudents(db: Db, actor: User, s: Uuid)
    requires actor.role == Teacher
    ensures IsStudentOwnerOrTeacherOrAdminObject(db, actor, ProfileOf(s)) <==>
      actor.id in db.teachers
      && (exists e :: e in db.enrollments && db.enrollments[e].student == s && db.enrollments[e].status == Active
           && db.enrollments[e].course in db.courses && db.courses[db.enrollments[e].course].teacher == Some(actor.id))
    ensures s !in db.students ==> !IsStudentOwnerOrTeacherOrAdminObject(db, actor, UserRow(s))
  {
  }
}
