/** Enrollment input validation and the two write paths of the enrollment
    serializers: creating a row, and the status-only update. */
module EnrollmentSerializers {
  import opened Common
  import opened Models
  import opened Email
  import opened Signals

  /** The writable fields of a create request. */
  datatype EnrollmentInput = EnrollmentInput(
    studentId: Option<Uuid>,
    courseId: Option<Uuid>,
    status: Option<EnrollmentStatus>)

  /** Field checks, then `validate`: both ids are required; the student is
      looked up before the course; an ACTIVE row for the pair refuses. On
      success, the resolved (student, course) pair. */
  function Validate(db: Db, input: EnrollmentInput): (r: Result<(Uuid, Uuid), Reason>)
    ensures r.Ok? ==>
      (input.studentId == Some(r.value.0) && input.courseId == Some(r.value.1)
       && r.value.0 in db.students && r.value.1 in db.courses
       && !HasActive(db.enrollments, r.value.0, r.value.1))
  {
    if input.studentId.None? || input.courseId.None? then Err(FieldRequired)
    else if input.studentId.value !in db.students then Err(StudentNotFound)
    else if input.courseId.value !in db.courses then Err(CourseNotFound)
    else if HasActive(db.enrollments, input.studentId.value, input.courseId.value) then Err(AlreadyEnrolled)
    else Ok((input.studentId.value, input.courseId.value))
  }

  /** The row `create` inserts: the resolved pair, the supplied status or
      ACTIVE, stamped with the current time. */
  function NewEnrollment(student: Uuid, course: Uuid, status: Option<EnrollmentStatus>, now: Instant): (e: Enrollment)
    ensures e.student == student && e.course == course && e.createdAt == now
    ensures status.None? ==> e.status == DefaultEnrollmentStatus
    ensures status.Some? ==> e.status == status.value
  {
    Enrollment(student, course, status.GetOr(DefaultEnrollmentStatus), now)
  }

  // ---- properties of validation ----

  /** A missing student is reported before the course is even looked at, and
      an unknown course only once the student is found. */
  lemma ValidateReportsStudentFirst(db: Db, s: Uuid, c: Uuid, status: Option<EnrollmentStatus>)
    ensures s !in db.students ==> Validate(db, EnrollmentInput(Some(s), Some(c), status)) == Err(StudentNotFound)
    ensures s in db.students && c !in db.courses ==>
      Validate(db, EnrollmentInput(Some(s), Some(c), status)) == Err(CourseNotFound)
  {
  }

  /** Once both resolve, validation fails iff an ACTIVE enrollment already
      links the pair; DROPPED rows never block. */
  lemma ValidateRefusesOnlyActiveDuplicates(db: Db, s: Uuid, c: Uuid, status: Option<EnrollmentStatus>)
    requires s in db.students && c in db.courses
    ensures Validate(db, EnrollmentInput(Some(s), Some(c), status)).Ok? <==> !HasActive(db.enrollments, s, c)
    ensures (forall e :: e in db.enrollments && db.enrollments[e].student == s && db.enrollments[e].course == c
               ==> db.enrollments[e].status == Dropped)
      ==> Validate(db, EnrollmentInput(Some(s), Some(c), status)) == Ok((s, c))
  {
  }

  /** Validating and then inserting never yields a second ACTIVE row for a
      pair: the invariant holds after every validated create. */
  lemma ValidatedInsertKeepsAtMostOneActive(db: Db, input: EnrollmentInput, id: Uuid, now: Instant)
    requires AtMostOneActive(db.enrollments)
    requires Validate(db, input).Ok? && id !in db.enrollments
    ensures var (s, c) := Validate(db, input).value;
      AtMostOneActive(db.enrollments[id := NewEnrollment(s, c, input.status, now)])
  {
    var (s, c) := Validate(db, input).value;
    var es := db.enrollments[id := NewEnrollment(s, c, input.status, now)];
    forall a, b | a in es && b in es && es[a].status == Active && es[b].status == Active
      && es[a].student == es[b].student && es[a].course == es[b].course
      ensures a == b
    {
      if a != b && (a == id || b == id) {
        var other := if a == id then b else a;
        assert IsActiveFor(db.enrollments, other, s, c);
        assert false;
      }
    }
  }

  /** Writing DROPPED over a row keeps the invariant. */
  lemma DroppingKeepsAtMostOneActive(es: map<Uuid, Enrollment>, id: Uuid)
    requires AtMostOneActive(es) && id in es
    ensures AtMostOneActive(es[id := es[id].(status := Dropped)])
  {
  }

  /** The status-only update has no duplicate check: re-activating a DROPPED
      row whose pair already has an ACTIVE row breaks the invariant. */
  lemma ReactivationBreaksAtMostOneActive(es: map<Uuid, Enrollment>, dropped: Uuid, active: Uuid)
    requires AtMostOneActive(es) && dropped in es && active in es && dropped != active
    requires es[dropped].status == Dropped
    requires IsActiveFor(es, active, es[dropped].student, es[dropped].course)
    ensures !AtMostOneActive(es[dropped := es[dropped].(status := Active)])
  {
    var es' := es[dropped := es[dropped].(status := Active)];
    assert es'[active].student == es'[dropped].student && es'[active].course == es'[dropped].course;
  }

  // ---- the writes ----

  /** `EnrollmentSerializer.create`: inserts exactly one row, with the hooks
      of its first save. */
  method CreateEnrollment(st: Store, student: Uuid, course: Uuid, status: Option<EnrollmentStatus>,
                          id: Uuid, d: Delivery, now: Instant) returns (e: Enrollment)
    requires st.Valid() && student in st.students && course in st.courses && id !in st.enrollments
    modifies st
    ensures st.Valid()
    ensures e == NewEnrollment(student, course, status, now)
    ensures st.Snapshot() == old(st.Snapshot()).(enrollments := old(st.enrollments)[id := e],
      notifications := old(st.notifications) + Logged(EnrollmentSignal(old(st.Snapshot()), id, e), d, now))
  {
    e := NewEnrollment(student, course, status, now);
    SaveEnrollment(st, id, e, d, now);
  }

  /** `EnrollmentUpdateSerializer`: writes only `status` (when supplied) and
      saves, without any duplicate check. */
  method UpdateEnrollmentStatus(st: Store, id: Uuid, status: Option<EnrollmentStatus>, d: Delivery, now: Instant)
    returns (e: Enrollment)
    requires st.Valid() && id in st.enrollments
    modifies st
    ensures st.Valid()
    ensures e == old(st.enrollments)[id].(status := status.GetOr(old(st.enrollments)[id].status))
    ensures st.Snapshot() == old(st.Snapshot()).(enrollments := old(st.enrollments)[id := e],
      notifications := old(st.notifications) + Logged(EnrollmentSignal(old(st.Snapshot()), id, e), d, now))
  {
    e := st.enrollments[id];
    if status.Some? {
      e := e.(status := status.value);
    }
    SaveEnrollment(st, id, e, d, now);
  }
}
