/** The student-profile endpoints: the permission table, the serializer each
    request gets, which profiles each role sees, and the `enrollments`
    action. */
module StudentViews {
  import opened Common
  import opened Models
  import opened Permissions

  /** `get_permissions`. */
  function PermissionFor(action: Action): Permission {
    match action
    case List => AllowAuthenticated
    case Create => AdminOnly
    case Destroy => AdminOnly
    case _ => StudentOwnerOrTeacherOrAdmin
  }

  /** The two profile serializers: the plain one keeps roll number, batch and
      enrollment year read-only; the update variant declares no read-only
      field. */
  datatype ProfileSerializer = PlainProfileSerializer | ProfileUpdateSerializer

  datatype StudentField = RollNumber | Batch | EnrollmentYear | Phone | Address | UserName

  /** What a serializer lets a request write (the nested user contributes
      only its name). */
  function WritableFields(s: ProfileSerializer): set<StudentField> {
    match s
    case PlainProfileSerializer => {Phone, Address, UserName}
    case ProfileUpdateSerializer => {RollNumber, Batch, EnrollmentYear, Phone, Address, UserName}
  }

  /** `get_serializer_class` as written: a student updating gets the update
      variant, every other request the plain serializer. */
  function SerializerFor(actor: Actor, action: Action): ProfileSerializer {
    if !actor.Authenticated? then PlainProfileSerializer
    else if (action == Update || action == PartialUpdate) && actor.user.role == Student then ProfileUpdateSerializer
    else PlainProfileSerializer
  }

  /** The selection the update variant's documentation describes: the
      variant that opens the registration columns goes to an admin. */
  function IntendedSerializerFor(actor: Actor, action: Action): ProfileSerializer {
    if !actor.Authenticated? then PlainProfileSerializer
    else if (action == Update || action == PartialUpdate) && actor.user.role == Admin then ProfileUpdateSerializer
    else PlainProfileSerializer
  }

  /** `get_queryset`. */
  function Visible(db: Db, actor: Actor): set<Uuid> {
    if !actor.Authenticated? then {}
    else
      var u := actor.user;
      match u.role
      case Admin => db.students.Keys
      case Teacher =>
        if u.id in db.teachers then set s | s in db.students && TeachesStudent(db, u.id, s) else {}
      case Student => if u.id in db.students then {u.id} else {}
      case _ => {}
  }

  /** `get_object` for a detail action. */
  function GetObject(db: Db, actor: User, action: Action, id: Uuid): (r: Result<StudentProfile, Reply>)
    ensures r.Ok? ==> id in db.students && r.value == db.students[id] && id in Visible(db, Authenticated(actor))
    ensures r.Err? ==> r.error == NotFound404 || r.error == Forbidden403(PermissionDenied)
  {
    if id !in Visible(db, Authenticated(actor)) then Err(NotFound404)
    else if PermissionFor(action) == StudentOwnerOrTeacherOrAdmin
            && !IsStudentOwnerOrTeacherOrAdminObject(db, actor, ProfileOf(id))
    then Err(Forbidden403(PermissionDenied))
    else Ok(db.students[id])
  }

  /** Every enrollment of the student, of any status. */
  function StudentEnrollments(db: Db, student: Uuid): set<Uuid> {
    set e | e in db.enrollments && db.enrollments[e].student == student
  }

  /** The `enrollments` action. */
  function Enrollments(db: Db, actor: Actor, id: Uuid): (r: Result<set<Uuid>, Reply>)
    ensures !actor.Authenticated? ==> r == Err(NotAuthenticated)
    ensures r.Ok? ==> id in Visible(db, actor) && r.value == StudentEnrollments(db, id)
  {
    if !actor.Authenticated? then Err(NotAuthenticated)
    else
      var fetched := GetObject(db, actor.user, Extra("enrollments"), id);
      if fetched.Err? then Err(fetched.error) else Ok(StudentEnrollments(db, id))
  }

  // ---- properties ----

  lemma PermissionTable(action: Action)
    ensures PermissionFor(action) == AllowAuthenticated <==> action == List
    ensures PermissionFor(action) == AdminOnly <==> action == Create || action == Destroy
    ensures PermissionFor(action) == StudentOwnerOrTeacherOrAdmin <==> action !in {List, Create, Destroy}
  {
  }

  /** A student updating gets the update variant; every other request, by
      any role or for any other action, gets the plain serializer. */
  lemma SerializerSelection(actor: Actor, action: Action)
    ensures SerializerFor(actor, action) == ProfileUpdateSerializer <==>
      actor.Authenticated? && actor.user.role == Student && (action == Update || action == PartialUpdate)
  {
  }

  /** As written, a student's own update may rewrite the roll number, batch
      and enrollment year, which the plain serializer keeps read-only for the
      admin. */
  lemma StudentRewritesRollNumberAsWritten(student: User, admin: User)
    requires student.role == Student && admin.role == Admin
    ensures RollNumber in WritableFields(SerializerFor(Authenticated(student), PartialUpdate))
    ensures RollNumber !in WritableFields(SerializerFor(Authenticated(admin), PartialUpdate))
  {
  }

  /** With the intended selection a student can never write the roll number,
      batch or enrollment year, and only an admin's update can. */
  lemma OnlyAdminRewritesRegistration(actor: Actor, action: Action)
    ensures {RollNumber, Batch, EnrollmentYear} * WritableFields(IntendedSerializerFor(actor, action)) != {} <==>
      actor.Authenticated? && actor.user.role == Admin && (action == Update || action == PartialUpdate)
    ensures WritableFields(IntendedSerializerFor(actor, action)) >= {Phone, Address, UserName}
  {
    var w := WritableFields(IntendedSerializerFor(actor, action));
    if actor.Authenticated? && actor.user.role == Admin && (action == Update || action == PartialUpdate) {
      assert RollNumber in {RollNumber, Batch, EnrollmentYear} * w;
    }
  }

  /** In a consistent store the queryset and IsStudentOwnerOrTeacherOrAdmin
      agree on every profile: admin sees all, a student only their own, a
      teacher the students with an ACTIVE enrollment in one of their courses. */
  lemma VisibleIffPermitted(db: Db, actor: User, s: Uuid)
    requires db.Valid() && s in db.students
    ensures s in Visible(db, Authenticated(actor)) <==> IsStudentOwnerOrTeacherOrAdminObject(db, actor, ProfileOf(s))
  {
    match actor.role
    case Admin =>
    case Student =>
      assert s in Visible(db, Authenticated(actor)) <==> s == actor.id;
    case Teacher =>
      assert s in Visible(db, Authenticated(actor)) <==> actor.id in db.teachers && TeachesStudent(db, actor.id, s);
    case OtherRole(_) =>
  }

  /** Unauthenticated users, other roles and users without the profile their
      role needs see no student. */
  lemma WhoSeesNothing(db: Db, actor: User)
    ensures Visible(db, Anonymous) == {}
    ensures actor.role.OtherRole? ==> Visible(db, Authenticated(actor)) == {}
    ensures actor.role == Teacher && actor.id !in db.teachers ==> Visible(db, Authenticated(actor)) == {}
    ensures actor.role == Student ==> Visible(db, Authenticated(actor)) <= {actor.id}
  {
  }

  /** Fetching a visible profile never meets the object-level 403. */
  lemma VisibleProfilesAreNeverForbidden(db: Db, actor: User, action: Action, id: Uuid)
    requires db.Valid()
    ensures GetObject(db, actor, action, id).Ok? <==> id in Visible(db, Authenticated(actor))
  {
    if id in Visible(db, Authenticated(actor)) {
      VisibleIffPermitted(db, actor, id);
    }
  }

  /** A teacher who may see a student gets all of that student's
      enrollments, including rows in courses the teacher does not teach and
      DROPPED rows. */
  lemma TeacherGetsAllEnrollmentsOfStudent(db: Db, actor: User, s: Uuid, e: Uuid)
    requires db.Valid() && actor.role == Teacher && s in Visible(db, Authenticated(actor))
    requires e in db.enrollments && db.enrollments[e].student == s
    ensures Enrollments(db, Authenticated(actor), s).Ok?
    ensures e in Enrollments(db, Authenticated(actor), s).value
  {
    VisibleProfilesAreNeverForbidden(db, actor, Extra("enrollments"), s);
  }
}
