/** Saving a User, a Course or an Enrollment, together with the hooks that
    run around the save: the pre-save handlers snapshot the stored teacher
    or status, the post-save handlers compare it with the saved value and
    decide which notification to send. Each `Save…` method is one `save()`
    call; its `…Signal` function names the send attempts the hooks make. */
module Signals {
  import opened Common
  import opened Models
  import opened Email

  // ---- pre_save snapshots ----

  /** `store_previous_teacher`: the stored row's teacher, or None when the
      row is not stored yet (the UUID primary key is set before the first
      save, so the lookup runs and finds nothing). */
  function PreviousTeacher(courses: map<Uuid, Course>, id: Uuid): (prev: Option<Uuid>)
    ensures id !in courses ==> prev.None?
    ensures id in courses ==> prev == courses[id].teacher
  {
    if id in courses then courses[id].teacher else None
  }

  /** `store_previous_enrollment_status`, in the same way. */
  function PreviousStatus(es: map<Uuid, Enrollment>, id: Uuid): (prev: Option<EnrollmentStatus>)
    ensures id !in es ==> prev.None?
    ensures id in es ==> prev == Some(es[id].status)
  {
    if id in es then Some(es[id].status) else None
  }

  // ---- post_save rules ----

  /** A course save announces an assignment when the saved teacher is set
      and differs from the snapshot. */
  predicate AssignmentDue(previous: Option<Uuid>, saved: Option<Uuid>) {
    saved.Some? && saved != previous
  }

  /** What may be saved as a course: its teacher, if any, has a profile. */
  predicate CourseFits(db: Db, c: Course) {
    c.teacher.Some? ==> c.teacher.value in db.teachers && c.teacher.value in db.users
  }

  /** What may be saved as an enrollment: its student and course exist. */
  predicate EnrollmentFits(db: Db, e: Enrollment) {
    e.student in db.students && e.student in db.users && e.course in db.courses
    && (db.courses[e.course].teacher.Some? ==> db.courses[e.course].teacher.value in db.users)
  }

  /** The attempts the course hooks make when course `id` is saved as `c`. */
  function CourseSignal(db: Db, id: Uuid, c: Course): seq<Attempt>
    requires CourseFits(db, c)
  {
    if AssignmentDue(PreviousTeacher(db.courses, id), c.teacher)
    then AssignmentAttempts(db.users[c.teacher.value], c)
    else []
  }

  /** The attempts the enrollment hooks make when enrollment `id` is saved
      as `e`: an enrollment notice for a row created ACTIVE, a removal notice
      for an update from ACTIVE to DROPPED, each only when the course has a
      teacher. */
  function EnrollmentSignal(db: Db, id: Uuid, e: Enrollment): seq<Attempt>
    requires EnrollmentFits(db, e)
  {
    var created := id !in db.enrollments;
    var teacher := db.courses[e.course].teacher;
    var student := db.users[e.student];
    var roll := db.students[e.student].rollNumber;
    var course := db.courses[e.course];
    if created && e.status == Active then
      (if teacher.Some? then EnrollmentAttempts(student, roll, course, db.users[teacher.value]) else [])
    else if !created && PreviousStatus(db.enrollments, id) == Some(Active) && e.status == Dropped then
      (if teacher.Some? then RemovalAttempts(student, roll, course, db.users[teacher.value]) else [])
    else []
  }

  /** The attempts the user hook makes: a welcome message, without a
      password, for a user row that is inserted. */
  function UserSignal(db: Db, u: User): seq<Attempt> {
    if u.id !in db.users then AccountAttempts(u, None) else []
  }

  // ---- properties of the rules ----

  /** A course save dispatches exactly one assignment, to the saved teacher,
      iff the teacher is set and changed; clearing the teacher or saving the
      same one again dispatches nothing. */
  lemma CourseSignalIffTeacherChanged(db: Db, id: Uuid, c: Course)
    requires CourseFits(db, c)
    ensures |CourseSignal(db, id, c)| == (if AssignmentDue(PreviousTeacher(db.courses, id), c.teacher) then 1 else 0)
    ensures |CourseSignal(db, id, c)| == 1 ==>
      CourseSignal(db, id, c)[0].receiver == db.users[c.teacher.value].id
      && CourseSignal(db, id, c)[0].kind == CourseAssignmentNotice
    ensures c.teacher.None? ==> CourseSignal(db, id, c) == []
    ensures id in db.courses && db.courses[id].teacher == c.teacher ==> CourseSignal(db, id, c) == []
  {
  }

  /** Creating an ACTIVE enrollment in a course with a teacher dispatches one
      enrollment notification (two attempts, student then teacher); without a
      teacher, or when created DROPPED, nothing is dispatched. */
  lemma EnrollmentCreatedSignal(db: Db, id: Uuid, e: Enrollment)
    requires db.Valid() && EnrollmentFits(db, e) && id !in db.enrollments
    ensures var sig := EnrollmentSignal(db, id, e);
      && (e.status == Active && db.courses[e.course].teacher.Some? ==>
           (|sig| == 2 && sig[0].kind == EnrollmentNotice && sig[1].kind == EnrollmentNotice
            && sig[0].receiver == e.student && sig[1].receiver == db.courses[e.course].teacher.value))
      && (e.status == Dropped || db.courses[e.course].teacher.None? ==> sig == [])
  {
    var course := db.courses[e.course];
    var student := db.users[e.student];
    assert student.id == e.student;
    if e.status == Active && course.teacher.Some? {
      var teacher := db.users[course.teacher.value];
      assert teacher.id == course.teacher.value;
      assert EnrollmentSignal(db, id, e) == EnrollmentAttempts(student, db.students[e.student].rollNumber, course, teacher);
    }
  }

  /** On an update, a removal is dispatched iff the stored status was ACTIVE,
      the new one is DROPPED and the course has a teacher; an update never
      dispatches an enrollment notice. */
  lemma EnrollmentUpdatedSignal(db: Db, id: Uuid, e: Enrollment)
    requires db.Valid() && EnrollmentFits(db, e) && id in db.enrollments
    ensures var sig := EnrollmentSignal(db, id, e);
      && (sig != [] <==>
           db.enrollments[id].status == Active && e.status == Dropped && db.courses[e.course].teacher.Some?)
      && (sig != [] ==>
           (|sig| == 2 && sig[0].kind == RemovalNotice && sig[1].kind == RemovalNotice
            && sig[0].receiver == e.student && sig[1].receiver == db.courses[e.course].teacher.value))
  {
    assert db.users[e.student].id == e.student;
    if db.courses[e.course].teacher.Some? {
      assert db.users[db.courses[e.course].teacher.value].id == db.courses[e.course].teacher.value;
    }
    UpdatedSignalShape(db, id, e);
  }

  /** The shape of the update signal, given only that the student's and the
      teacher's user rows carry their own ids. */
  lemma UpdatedSignalShape(db: Db, id: Uuid, e: Enrollment)
    requires EnrollmentFits(db, e) && id in db.enrollments
    requires db.users[e.student].id == e.student
    requires db.courses[e.course].teacher.Some? ==>
      db.users[db.courses[e.course].teacher.value].id == db.courses[e.course].teacher.value
    ensures var sig := EnrollmentSignal(db, id, e);
      && (sig != [] <==>
           db.enrollments[id].status == Active && e.status == Dropped && db.courses[e.course].teacher.Some?)
      && (sig != [] ==>
           (|sig| == 2 && sig[0].kind == RemovalNotice && sig[1].kind == RemovalNotice
            && sig[0].receiver == e.student && sig[1].receiver == db.courses[e.course].teacher.value))
  {
    var course := db.courses[e.course];
    if db.enrollments[id].status == Active && e.status == Dropped && course.teacher.Some? {
      var teacher := db.users[course.teacher.value];
      assert EnrollmentSignal(db, id, e) == RemovalAttempts(db.users[e.student], db.students[e.student].rollNumber, course, teacher);
    } else {
      assert EnrollmentSignal(db, id, e) == [];
    }
  }

  /** Inserting a user dispatches exactly one welcome message, always the
      variant without a password; saving a stored user dispatches none. */
  lemma UserSignalWelcomesWithoutPassword(db: Db, u: User)
    ensures u.id !in db.users ==>
      (|UserSignal(db, u)| == 1
       && UserSignal(db, u)[0].kind == AccountCreatedNotice
       && UserSignal(db, u)[0].receiver == u.id
       && !IsCredentialsVariant(u, UserSignal(db, u)[0].mail.body))
    ensures u.id in db.users ==> UserSignal(db, u) == []
  {
    AccountMailCredentialsIffTruthy(u, None);
  }

  // ---- the saves ----

  /** Another user already holds `u`'s e-mail, so the unique column
      refuses to store `u`. */
  predicate EmailHeldByOther(users: map<Uuid, User>, u: User) {
    exists k :: k in users && k != u.id && users[k].email == u.email
  }

  /** `User.save()`. An email already held by another user violates the
      unique column: nothing is written and no hook runs (the caller sees an
      IntegrityError). */
  method SaveUser(st: Store, u: User, d: Delivery, now: Instant) returns (saved: bool)
    requires st.Valid()
    modifies st
    ensures st.Valid()
    ensures saved <==> !EmailHeldByOther(old(st.users), u)
    ensures saved ==> st.Snapshot() == old(st.Snapshot()).(users := old(st.users)[u.id := u],
      notifications := old(st.notifications) + Logged(UserSignal(old(st.Snapshot()), u), d, now))
    ensures !saved ==> st.Snapshot() == old(st.Snapshot())
  {
    saved := !exists k :: k in st.users && k != u.id && st.users[k].email == u.email;
    if !saved {
      return;
    }
    var created := u.id !in st.users;
    ghost var before := st.Snapshot();
    st.users := st.users[u.id := u];
    assert st.Valid();
    if created {
      SendAccountCreatedNotification(st, u, None, d, now);
    }
    assert UserSignal(before, u) == if created then AccountAttempts(u, None) else [];
  }

  /** `Course.save()` with its two hooks. */
  method SaveCourse(st: Store, id: Uuid, c: Course, d: Delivery, now: Instant)
    requires st.Valid() && CourseFits(st.Snapshot(), c)
    modifies st
    ensures st.Valid()
    ensures st.Snapshot() == old(st.Snapshot()).(courses := old(st.courses)[id := c],
      notifications := old(st.notifications) + Logged(CourseSignal(old(st.Snapshot()), id, c), d, now))
  {
    var previous := PreviousTeacher(st.courses, id);
    st.courses := st.courses[id := c];
    if AssignmentDue(previous, c.teacher) {
      SendCourseAssignmentNotification(st, st.users[c.teacher.value], c, d, now);
    }
  }

  /** `Enrollment.save()` with its two hooks. */
  method SaveEnrollment(st: Store, id: Uuid, e: Enrollment, d: Delivery, now: Instant)
    requires st.Valid() && EnrollmentFits(st.Snapshot(), e)
    modifies st
    ensures st.Valid()
    ensures st.Snapshot() == old(st.Snapshot()).(enrollments := old(st.enrollments)[id := e],
      notifications := old(st.notifications) + Logged(EnrollmentSignal(old(st.Snapshot()), id, e), d, now))
  {
    ghost var db0 := st.Snapshot();
    var previous := PreviousStatus(st.enrollments, id);
    var created := id !in st.enrollments;
    InsertingEnrollmentKeepsValid(db0, id, e);
    st.enrollments := st.enrollments[id := e];
    assert st.Snapshot() == db0.(enrollments := db0.enrollments[id := e]);
    var course := st.courses[e.course];
    var student := st.users[e.student];
    var roll := st.students[e.student].rollNumber;
    if created && e.status == Active {
      if course.teacher.Some? {
        SendEnrollmentNotification(st, student, roll, course, st.users[course.teacher.value], d, now);
      }
    } else if !created && previous == Some(Active) && e.status == Dropped {
      if course.teacher.Some? {
        SendRemovalNotification(st, student, roll, course, st.users[course.teacher.value], d, now);
      }
    }
  }

  /** Writing an enrollment whose student and course exist keeps the
      database's integrity. */
  lemma InsertingEnrollmentKeepsValid(db: Db, id: Uuid, e: Enrollment)
    requires db.Valid() && EnrollmentFits(db, e)
    ensures db.(enrollments := db.enrollments[id := e]).Valid()
  {
  }
}
