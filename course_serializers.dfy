/** The course serializer: field validation, the derived enrolled-students
    count, and the two write paths with their teacher assignment by user id. */
module CourseSerializers {
  import opened Common
  import opened Models
  import opened Email
  import opened Signals

  /** The writable fields of a course request; `teacherId` is the
      write-only teacher user id (absent and null are the same). */
  datatype CourseInput = CourseInput(
    title: Option<string>,
    description: Option<string>,
    durationWeeks: Option<nat>,
    schedule: Option<string>,
    teacherId: Option<Uuid>)

  datatype CourseField = Title | Description | DurationWeeks | Schedule

  const TitleMaxLength: nat := 255
  const ScheduleMaxLength: nat := 500
  /** The largest value a PostgreSQL `integer` column accepts, which the
      serializer field of a PositiveIntegerField takes as its maximum. */
  const DurationMax: nat := 2147483647

  /** One text column's check: required unless the request is partial, never
      blank, and within its maximum length when it has one. */
  function TextError(v: Option<string>, maxLength: Option<nat>, partial: bool): (err: Option<Reason>)
    ensures err.None? <==>
      (v.None? && partial) || (v.Some? && |v.value| > 0 && (maxLength.Some? ==> |v.value| <= maxLength.value))
  {
    if v.None? then (if partial then None else Some(FieldRequired))
    else if |v.value| == 0 then Some(FieldBlank)
    else if maxLength.Some? && |v.value| > maxLength.value then Some(FieldTooLong)
    else None
  }

  /** The errors of every field at once, as the serializer reports them. */
  function CourseErrors(input: CourseInput, partial: bool): map<CourseField, Reason> {
    var title := TextError(input.title, Some(TitleMaxLength), partial);
    var description := TextError(input.description, None, partial);
    var schedule := TextError(input.schedule, Some(ScheduleMaxLength), partial);
    var duration :=
      if input.durationWeeks.None? then (if partial then None else Some(FieldRequired))
      else if input.durationWeeks.value > DurationMax then Some(FieldTooLarge)
      else None;
    (if title.Some? then map[Title := title.value] else map[])
    + (if description.Some? then map[Description := description.value] else map[])
    + (if duration.Some? then map[DurationWeeks := duration.value] else map[])
    + (if schedule.Some? then map[Schedule := schedule.value] else map[])
  }

  /** The saved fields with a request's supplied values written over them;
      the teacher is not among them. */
  function WithFields(c: Course, input: CourseInput): Course {
    c.(title := input.title.GetOr(c.title),
       description := input.description.GetOr(c.description),
       durationWeeks := input.durationWeeks.GetOr(c.durationWeeks),
       schedule := input.schedule.GetOr(c.schedule))
  }

  /** `TeacherProfile.objects.get(user_id=teacher_id)`: the id when it names
      a teacher profile, else None (the lookup failure is swallowed). */
  function ResolveTeacher(teachers: map<Uuid, TeacherProfile>, teacherId: Option<Uuid>): (t: Option<Uuid>)
    ensures t.Some? <==> teacherId.Some? && teacherId.value in teachers
    ensures t.Some? ==> t == teacherId
  {
    if teacherId.Some? && teacherId.value in teachers then teacherId else None
  }

  /** The course `update` writes: the supplied fields, and the teacher
      replaced only when the id resolves. */
  function UpdatedCourse(c: Course, input: CourseInput, teachers: map<Uuid, TeacherProfile>): Course {
    var resolved := ResolveTeacher(teachers, input.teacherId);
    WithFields(c, input).(teacher := if resolved.Some? then resolved else c.teacher)
  }

  /** `get_enrolled_students_count`: the course's ACTIVE enrollments. */
  function EnrolledCount(db: Db, course: Uuid): nat {
    |ActiveEnrollmentsOf(db.enrollments, course)|
  }

  // ---- properties ----

  /** A full request is valid iff every text field is non-blank and within
      its length, and the duration is given and at most `DurationMax`. */
  lemma CourseErrorsFull(input: CourseInput)
    ensures CourseErrors(input, false) == map[] <==>
      && input.title.Some? && 0 < |input.title.value| <= TitleMaxLength
      && input.description.Some? && 0 < |input.description.value|
      && input.durationWeeks.Some? && input.durationWeeks.value <= DurationMax
      && input.schedule.Some? && 0 < |input.schedule.value| <= ScheduleMaxLength
  {
    var errs := CourseErrors(input, false);
    if errs == map[] {
      assert Title !in errs && Description !in errs && DurationWeeks !in errs && Schedule !in errs;
    }
  }

  /** A partial request is checked only on the fields it supplies. */
  lemma CourseErrorsPartial(input: CourseInput)
    ensures input.title.None? ==> Title !in CourseErrors(input, true)
    ensures input.description.None? ==> Description !in CourseErrors(input, true)
    ensures input.durationWeeks.None? ==> DurationWeeks !in CourseErrors(input, true)
    ensures input.schedule.None? ==> Schedule !in CourseErrors(input, true)
    ensures CourseErrors(CourseInput(None, None, None, None, input.teacherId), true) == map[]
  {
  }

  /** A title one character too long, a blank schedule, or a duration one
      past the column's maximum, is reported on that field. */
  lemma CourseErrorsReportTheField(input: CourseInput)
    ensures input.durationWeeks == Some(2147483648) ==>
      DurationWeeks in CourseErrors(input, true) && CourseErrors(input, true)[DurationWeeks] == FieldTooLarge
    ensures input.durationWeeks == Some(2147483647) ==> DurationWeeks !in CourseErrors(input, false)
    ensures input.title.Some? && |input.title.value| == TitleMaxLength + 1 ==>
      Title in CourseErrors(input, true) && CourseErrors(input, true)[Title] == FieldTooLong
    ensures input.schedule == Some("") ==>
      Schedule in CourseErrors(input, false) && CourseErrors(input, false)[Schedule] == FieldBlank
  {
  }

  /** Update writes exactly the supplied fields: an omitted field keeps its
      stored value, a supplied one takes the request's. */
  lemma UpdatedCourseWritesSuppliedFields(c: Course, input: CourseInput, teachers: map<Uuid, TeacherProfile>)
    ensures var u := UpdatedCourse(c, input, teachers);
      && (input.title.None? ==> u.title == c.title) && (input.title.Some? ==> u.title == input.title.value)
      && (input.description.None? ==> u.description == c.description)
      && (input.description.Some? ==> u.description == input.description.value)
      && (input.durationWeeks.None? ==> u.durationWeeks == c.durationWeeks)
      && (input.durationWeeks.Some? ==> u.durationWeeks == input.durationWeeks.value)
      && (input.schedule.None? ==> u.schedule == c.schedule)
      && (input.schedule.Some? ==> u.schedule == input.schedule.value)
  {
  }

  /** The teacher after an update: the requested teacher when the id names a
      profile, otherwise the stored one. No request clears a teacher. */
  lemma UpdateNeverClearsTeacher(c: Course, input: CourseInput, teachers: map<Uuid, TeacherProfile>)
    ensures input.teacherId.Some? && input.teacherId.value in teachers ==>
      UpdatedCourse(c, input, teachers).teacher == input.teacherId
    ensures !(input.teacherId.Some? && input.teacherId.value in teachers) ==>
      UpdatedCourse(c, input, teachers).teacher == c.teacher
    ensures c.teacher.Some? ==> UpdatedCourse(c, input, teachers).teacher.Some?
  {
  }

  /** An update announces an assignment exactly when it sets a resolvable
      teacher other than the stored one. */
  lemma UpdateAnnouncesOnlyNewTeacher(db: Db, id: Uuid, input: CourseInput)
    requires db.Valid() && id in db.courses
    ensures var u := UpdatedCourse(db.courses[id], input, db.teachers);
      AssignmentDue(PreviousTeacher(db.courses, id), u.teacher) <==>
        input.teacherId.Some? && input.teacherId.value in db.teachers
        && db.courses[id].teacher != input.teacherId
  {
  }

  /** Inserting a row moves the count of its course by one when it is
      ACTIVE, and leaves every other count alone. */
  lemma EnrolledCountAfterInsert(es: map<Uuid, Enrollment>, id: Uuid, e: Enrollment, course: Uuid)
    requires id !in es
    ensures |ActiveEnrollmentsOf(es[id := e], course)| ==
      |ActiveEnrollmentsOf(es, course)| + (if e.course == course && e.status == Active then 1 else 0)
  {
    var before := ActiveEnrollmentsOf(es, course);
    if e.course == course && e.status == Active {
      assert ActiveEnrollmentsOf(es[id := e], course) == before + {id};
    } else {
      assert ActiveEnrollmentsOf(es[id := e], course) == before;
    }
  }

  /** Dropping an ACTIVE row lowers its course's count by one. */
  lemma EnrolledCountAfterDrop(es: map<Uuid, Enrollment>, id: Uuid)
    requires id in es && es[id].status == Active
    ensures |ActiveEnrollmentsOf(es[id := es[id].(status := Dropped)], es[id].course)| ==
      |ActiveEnrollmentsOf(es, es[id].course)| - 1
  {
    var course := es[id].course;
    assert ActiveEnrollmentsOf(es[id := es[id].(status := Dropped)], course) == ActiveEnrollmentsOf(es, course) - {id};
  }

  // ---- the writes ----

  /** `create`: insert the course without a teacher, then, when the teacher
      id resolves, set it and save again (which announces the assignment).
      An id naming no teacher is ignored. The four columns are those of a
      request that passed validation. */
  method CreateCourse(st: Store, id: Uuid, title: string, description: string, durationWeeks: nat,
                      schedule: string, teacherId: Option<Uuid>, d: Delivery, now: Instant) returns (c: Course)
    requires st.Valid() && id !in st.courses
    modifies st
    ensures st.Valid()
    ensures c == Course(title, description, durationWeeks, schedule, ResolveTeacher(old(st.teachers), teacherId))
    ensures st.Snapshot() == old(st.Snapshot()).(courses := old(st.courses)[id := c],
      notifications := old(st.notifications)
        + Logged(if c.teacher.Some? then AssignmentAttempts(old(st.users)[c.teacher.value], c) else [], d, now))
  {
    ghost var db0 := st.Snapshot();
    c := Course(title, description, durationWeeks, schedule, None);
    SaveCourse(st, id, c, d, now);
    assert CourseSignal(db0, id, c) == [];
    assert Logged([], d, now) == [];
    assert st.Snapshot() == db0.(courses := db0.courses[id := c]);
    var teacher := ResolveTeacher(st.teachers, teacherId);
    if teacher.Some? {
      ghost var db1 := st.Snapshot();
      ghost var first := c;
      c := c.(teacher := teacher);
      SaveCourse(st, id, c, d, now);
      assert CourseSignal(db1, id, c) == AssignmentAttempts(db0.users[c.teacher.value], c);
      SecondCourseSaveOverwrites(db0, db1, st.Snapshot(), id, first, c, Logged(CourseSignal(db1, id, c), d, now));
    }
  }

  /** Saving a course row a second time replaces the first write; the log
      keeps only what the second save sent. */
  lemma SecondCourseSaveOverwrites(db0: Db, db1: Db, after: Db, id: Uuid, first: Course, second: Course,
                                   sent: seq<Notification>)
    requires db1 == db0.(courses := db0.courses[id := first])
    requires after == db1.(courses := db1.courses[id := second], notifications := db1.notifications + sent)
    ensures after == db0.(courses := db0.courses[id := second], notifications := db0.notifications + sent)
  {
    assert db0.courses[id := first][id := second] == db0.courses[id := second];
  }

  /** `update`: write the supplied fields and, when the id resolves, the
      teacher; then save once. */
  method UpdateCourse(st: Store, id: Uuid, input: CourseInput, d: Delivery, now: Instant) returns (c: Course)
    requires st.Valid() && id in st.courses
    modifies st
    ensures st.Valid()
    ensures c == UpdatedCourse(old(st.courses)[id], input, old(st.teachers))
    ensures st.Snapshot() == old(st.Snapshot()).(courses := old(st.courses)[id := c],
      notifications := old(st.notifications) + Logged(CourseSignal(old(st.Snapshot()), id, c), d, now))
  {
    c := WithFields(st.courses[id], input);
    if input.teacherId.Some? {
      var teacher := ResolveTeacher(st.teachers, input.teacherId);
      if teacher.Some? {
        c := c.(teacher := teacher);
      }
    }
    SaveCourse(st, id, c, d, now);
  }
}
