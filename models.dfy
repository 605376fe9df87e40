/** The entity records of the system, their value domains and defaults, the
    relational store they live in, and the store's integrity rules
    (foreign keys, unique columns, what deleting a row does to the rows
    that point at it). */
module Models {
  import opened Common

  /** `User.role`. The three listed choices, or any other stored text. */
  datatype Role = Admin | Teacher | Student | OtherRole(raw: string)

  /** `User.get_role_display()`: the label of a listed choice, else the raw value. */
  function RoleDisplay(r: Role): (shown: string)
    ensures r.OtherRole? ==> shown == r.raw
    ensures r == Admin ==> shown == "Admin"
    ensures r == Teacher ==> shown == "Teacher"
    ensures r == Student ==> shown == "Student"
  {
    match r
    case Admin => "Admin"
    case Teacher => "Teacher"
    case Student => "Student"
    case OtherRole(raw) => raw
  }

  datatype EnrollmentStatus = Active | Dropped

  /** `Enrollment.status` defaults to ACTIVE. */
  const DefaultEnrollmentStatus: EnrollmentStatus := Active

  datatype NotificationKind =
    | EnrollmentNotice
    | RemovalNotice
    | CourseAssignmentNotice
    | AccountCreatedNotice

  /** What `set_password` leaves in the password column. Hashing is
      abstracted: a hash is identified with the raw text it was made from. */
  datatype Credential = Unusable | Hashed(raw: string)

  /** `set_password(raw)`: `None` makes the password unusable. */
  function SetPassword(raw: Option<string>): (c: Credential)
    ensures raw.None? <==> c.Unusable?
    ensures raw.Some? ==> c.raw == raw.value
  {
    match raw
    case None => Unusable
    case Some(p) => Hashed(p)
  }

  /** `check_password(raw)`: an unusable password never matches. */
  predicate CheckPassword(c: Credential, raw: string) {
    c.Hashed? && c.raw == raw
  }

  lemma CheckPasswordAfterSet(p: Option<string>, q: string)
    ensures CheckPassword(SetPassword(p), q) <==> p == Some(q)
  {
  }

  datatype User = User(
    id: Uuid,
    email: string,
    name: string,
    role: Role,
    isActive: bool,
    isStaff: bool,
    isSuperuser: bool,
    password: Credential)

  /** A user row as the model's field defaults build it: active, neither
      staff nor superuser. */
  function NewUser(id: Uuid, email: string, name: string, role: Role, password: Credential): (u: User)
    ensures u.id == id && u.email == email && u.name == name && u.role == role && u.password == password
    ensures u.isActive && !u.isStaff && !u.isSuperuser
  {
    User(id, email, name, role, true, false, false, password)
  }

  datatype TeacherProfile = TeacherProfile(
    phone: Option<string>,
    address: Option<string>,
    qualification: Option<string>,
    experienceYears: nat)

  /** `TeacherProfile.objects.create(user=user)`: every optional column empty,
      no experience. */
  const BlankTeacherProfile: TeacherProfile := TeacherProfile(None, None, None, 0)

  datatype StudentProfile = StudentProfile(
    rollNumber: string,
    batch: string,
    enrollmentYear: nat,
    phone: Option<string>,
    address: Option<string>)

  datatype Course = Course(
    title: string,
    description: string,
    durationWeeks: nat,
    schedule: string,
    teacher: Option<Uuid>)

  datatype Enrollment = Enrollment(
    student: Uuid,
    course: Uuid,
    status: EnrollmentStatus,
    createdAt: Instant)

  datatype Notification = Notification(
    receiver: Uuid,
    message: string,
    kind: NotificationKind,
    sentAt: Instant)

  /** The whole store: one table per model. Profiles are keyed by their
      user's id (their primary key is the one-to-one `user` column); the
      notification log is kept in insertion order. */
  datatype Db = Db(
    users: map<Uuid, User>,
    teachers: map<Uuid, TeacherProfile>,
    students: map<Uuid, StudentProfile>,
    courses: map<Uuid, Course>,
    enrollments: map<Uuid, Enrollment>,
    notifications: seq<Notification>)
  {
    /** The integrity the database enforces: primary keys, foreign keys and
        unique columns. */
    ghost predicate Valid() {
      && (forall k :: k in users ==> users[k].id == k)
      && teachers.Keys <= users.Keys
      && students.Keys <= users.Keys
      && (forall c :: c in courses && courses[c].teacher.Some? ==> courses[c].teacher.value in teachers)
      && (forall e :: e in enrollments ==> enrollments[e].student in students && enrollments[e].course in courses)
      && (forall i :: 0 <= i < |notifications| ==> notifications[i].receiver in users)
      && EmailsUnique(users)
      && RollNumbersUnique(students)
    }
  }

  const EmptyDb: Db := Db(map[], map[], map[], map[], map[], [])

  predicate EmailsUnique(users: map<Uuid, User>) {
    forall a, b :: a in users && b in users && a != b ==> users[a].email != users[b].email
  }

  predicate RollNumbersUnique(students: map<Uuid, StudentProfile>) {
    forall a, b :: a in students && b in students && a != b ==> students[a].rollNumber != students[b].rollNumber
  }

  predicate EmailInUse(users: map<Uuid, User>, email: string) {
    exists k :: k in users && users[k].email == email
  }

  predicate RollNumberInUse(students: map<Uuid, StudentProfile>, roll: string) {
    exists k :: k in students && students[k].rollNumber == roll
  }

  predicate IsActiveFor(es: map<Uuid, Enrollment>, e: Uuid, student: Uuid, course: Uuid) {
    e in es && es[e].student == student && es[e].course == course && es[e].status == Active
  }

  /** Some ACTIVE enrollment links this student to this course. */
  predicate HasActive(es: map<Uuid, Enrollment>, student: Uuid, course: Uuid) {
    exists e :: e in es && IsActiveFor(es, e, student, course)
  }

  /** The enrollment invariant: at most one ACTIVE row per (student, course). */
  ghost predicate AtMostOneActive(es: map<Uuid, Enrollment>) {
    forall a, b ::
      (a in es && b in es && es[a].status == Active && es[b].status == Active
       && es[a].student == es[b].student && es[a].course == es[b].course) ==> a == b
  }

  /** The ids of the course's ACTIVE enrollments. */
  function ActiveEnrollmentsOf(es: map<Uuid, Enrollment>, course: Uuid): set<Uuid> {
    set e | e in es && es[e].course == course && es[e].status == Active
  }

  /** Deleting a teacher profile: `Course.teacher` is SET_NULL. */
  function DeleteTeacherProfile(db: Db, t: Uuid): Db {
    db.(teachers := db.teachers - {t},
        courses := map c | c in db.courses ::
          if db.courses[c].teacher == Some(t) then db.courses[c].(teacher := None) else db.courses[c])
  }

  /** Deleting a student profile: its enrollments CASCADE. */
  function DeleteStudentProfile(db: Db, s: Uuid): Db {
    db.(students := db.students - {s},
        enrollments := map e | e in db.enrollments && db.enrollments[e].student != s :: db.enrollments[e])
  }

  /** Deleting a course: its enrollments CASCADE. */
  function DeleteCourse(db: Db, c: Uuid): Db {
    db.(courses := db.courses - {c},
        enrollments := map e | e in db.enrollments && db.enrollments[e].course != c :: db.enrollments[e])
  }

  lemma DeleteTeacherProfileNullsCourses(db: Db, t: Uuid)
    requires db.Valid()
    ensures DeleteTeacherProfile(db, t).Valid()
    ensures DeleteTeacherProfile(db, t).courses.Keys == db.courses.Keys
    ensures forall c :: c in db.courses ==>
      DeleteTeacherProfile(db, t).courses[c].teacher ==
        (if db.courses[c].teacher == Some(t) then None else db.courses[c].teacher)
    ensures DeleteTeacherProfile(db, t).enrollments == db.enrollments
  {
  }

  lemma DeleteStudentProfileCascades(db: Db, s: Uuid)
    requires db.Valid()
    ensures DeleteStudentProfile(db, s).Valid()
    ensures forall e :: e in DeleteStudentProfile(db, s).enrollments <==> e in db.enrollments && db.enrollments[e].student != s
    ensures AtMostOneActive(db.enrollments) ==> AtMostOneActive(DeleteStudentProfile(db, s).enrollments)
  {
  }

  lemma DeleteCourseCascades(db: Db, c: Uuid)
    requires db.Valid()
    ensures DeleteCourse(db, c).Valid()
    ensures forall e :: e in DeleteCourse(db, c).enrollments <==> e in db.enrollments && db.enrollments[e].course != c
    ensures AtMostOneActive(db.enrollments) ==> AtMostOneActive(DeleteCourse(db, c).enrollments)
  {
  }

  /** The database: one mutable field per table. */
  class Store {
    var users: map<Uuid, User>
    var teachers: map<Uuid, TeacherProfile>
    var students: map<Uuid, StudentProfile>
    var courses: map<Uuid, Course>
    var enrollments: map<Uuid, Enrollment>
    var notifications: seq<Notification>

    constructor ()
      ensures Snapshot() == EmptyDb && Valid()
    {
      users, teachers, students := map[], map[], map[];
      courses, enrollments, notifications := map[], map[], [];
    }

    function Snapshot(): Db
      reads this
    {
      Db(users, teachers, students, courses, enrollments, notifications)
    }

    ghost predicate Valid()
      reads this
    {
      Snapshot().Valid()
    }
  }
}
