/** The notification service: the texts of the four kinds of message, and
    the send-then-log step every notification goes through. The outbound
    mail channel is not modelled; its verdict on each send attempt is an
    input (`Delivery`). */
module Email {
  import opened Common
  import opened Models

  datatype Mail = Mail(subject: string, body: string)

  /** One call of `send_email_notification`: who receives it, what it says,
      and which kind of log row it produces. */
  datatype Attempt = Attempt(receiver: Uuid, mail: Mail, kind: NotificationKind)

  /** The mail channel's verdict on the first and the second send attempt of
      one dispatch (`send_mail` returned, or raised). */
  datatype Delivery = Delivery(first: bool, second: bool)

  /** The log row a delivered attempt leaves. */
  function Row(a: Attempt, now: Instant): (n: Notification)
    ensures n.receiver == a.receiver && n.message == a.mail.body && n.kind == a.kind && n.sentAt == now
  {
    Notification(a.receiver, a.mail.body, a.kind, now)
  }

  /** The rows a dispatch of at most two attempts leaves: one per attempt the
      channel accepted, in the order the attempts were made. */
  function Logged(attempts: seq<Attempt>, d: Delivery, now: Instant): seq<Notification>
    requires |attempts| <= 2
  {
    (if |attempts| >= 1 && d.first then [Row(attempts[0], now)] else [])
    + (if |attempts| == 2 && d.second then [Row(attempts[1], now)] else [])
  }

  /** Every logged row comes from one of the attempts, and its receiver is
      that attempt's receiver. */
  lemma LoggedRowsComeFromAttempts(attempts: seq<Attempt>, d: Delivery, now: Instant)
    requires |attempts| <= 2
    ensures |Logged(attempts, d, now)| <= |attempts|
    ensures forall i :: 0 <= i < |Logged(attempts, d, now)| ==>
      exists j :: 0 <= j < |attempts| && Logged(attempts, d, now)[i] == Row(attempts[j], now)
  {
    var rows := Logged(attempts, d, now);
    forall i | 0 <= i < |rows|
      ensures exists j :: 0 <= j < |attempts| && rows[i] == Row(attempts[j], now)
    {
      if |attempts| >= 1 && d.first && i == 0 {
        assert rows[i] == Row(attempts[0], now);
      } else {
        assert rows[i] == Row(attempts[1], now);
      }
    }
  }

  // ---- message builders ----

  function EnrollmentMailToStudent(student: User, course: Course, teacher: User): Mail {
    Mail("Enrolled in Course: " + course.title,
         "Dear " + student.name + ", you have been successfully enrolled in the course '" + course.title
         + "'. The course is taught by " + teacher.name + ". Course Duration: " + NatToString(course.durationWeeks)
         + " weeks. Schedule: " + course.schedule)
  }

  function EnrollmentMailToTeacher(student: User, rollNumber: string, course: Course, teacher: User): Mail {
    Mail("New Student Enrolled: " + course.title,
         "Dear " + teacher.name + ", a new student '" + student.name + "' (Roll No: " + rollNumber
         + ") has been enrolled in your course '" + course.title + "'.")
  }

  function RemovalMailToStudent(student: User, course: Course): Mail {
    Mail("Removed from Course: " + course.title,
         "Dear " + student.name + ", you have been removed from the course '" + course.title
         + "'. If you have any questions, please contact the administration.")
  }

  function RemovalMailToTeacher(student: User, rollNumber: string, course: Course, teacher: User): Mail {
    Mail("Student Removed: " + course.title,
         "Dear " + teacher.name + ", student '" + student.name + "' (Roll No: " + rollNumber
         + ") has been removed from your course '" + course.title + "'.")
  }

  function AssignmentMail(teacher: User, course: Course): Mail {
    Mail("Course Assignment: " + course.title,
         "Dear " + teacher.name + ", you have been assigned to teach the course '" + course.title
         + "'. Course Description: " + course.description + ". Duration: " + NatToString(course.durationWeeks)
         + " weeks. Schedule: " + course.schedule)
  }

  const AccountSubject: string := "Welcome to Student Management System - Account Created"

  /** Python truthiness of the optional password: present and non-empty. */
  predicate Truthy(password: Option<string>) {
    password.Some? && password.value != ""
  }

  function AccountOpening(user: User): string {
    "Dear " + user.name + ", your account has been created successfully. Your login "
  }

  function CredentialsTail(user: User, password: string): string {
    "credentials are:\nEmail: " + user.email + "\nPassword: " + password
    + "\nRole: " + RoleDisplay(user.role) + "\n\nPlease login and change your password for security."
  }

  function NoPasswordTail(user: User): string {
    "email is: " + user.email + ". Role: " + RoleDisplay(user.role)
    + ". Please contact the administrator for your password."
  }

  function AccountMail(user: User, password: Option<string>): Mail {
    if Truthy(password) then
      Mail(AccountSubject, AccountOpening(user) + CredentialsTail(user, password.value))
    else
      Mail(AccountSubject, AccountOpening(user) + NoPasswordTail(user))
  }

  /** The credentials variant of the welcome message, recognised by its opening. */
  predicate IsCredentialsVariant(user: User, body: string) {
    var opening := AccountOpening(user) + "credentials";
    |opening| <= |body| && body[..|opening|] == opening
  }

  // ---- the attempts each notification makes, in order ----

  function EnrollmentAttempts(student: User, rollNumber: string, course: Course, teacher: User): seq<Attempt> {
    [Attempt(student.id, EnrollmentMailToStudent(student, course, teacher), EnrollmentNotice),
     Attempt(teacher.id, EnrollmentMailToTeacher(student, rollNumber, course, teacher), EnrollmentNotice)]
  }

  function RemovalAttempts(student: User, rollNumber: string, course: Course, teacher: User): seq<Attempt> {
    [Attempt(student.id, RemovalMailToStudent(student, course), RemovalNotice),
     Attempt(teacher.id, RemovalMailToTeacher(student, rollNumber, course, teacher), RemovalNotice)]
  }

  function AssignmentAttempts(teacher: User, course: Course): seq<Attempt> {
    [Attempt(teacher.id, AssignmentMail(teacher, course), CourseAssignmentNotice)]
  }

  function AccountAttempts(user: User, password: Option<string>): seq<Attempt> {
    [Attempt(user.id, AccountMail(user, password), AccountCreatedNotice)]
  }

  // ---- properties of the messages and of what a dispatch logs ----

  /** The student's enrollment message names the course, its length in weeks
      and its schedule. */
  lemma StudentEnrollmentMailDescribesCourse(student: User, course: Course, teacher: User)
    ensures Contains(EnrollmentMailToStudent(student, course, teacher).body, course.title)
    ensures Contains(EnrollmentMailToStudent(student, course, teacher).body, NatToString(course.durationWeeks) + " weeks")
    ensures Contains(EnrollmentMailToStudent(student, course, teacher).body, course.schedule)
  {
    MailNamesTitle(student, course, teacher);
    MailGivesWeeks(student, course, teacher);
    MailGivesSchedule(student, course, teacher);
  }

  lemma MailNamesTitle(student: User, course: Course, teacher: User)
    ensures Contains(EnrollmentMailToStudent(student, course, teacher).body, course.title)
  {
    var n := NatToString(course.durationWeeks);
    var s1 := "Dear " + student.name + ", you have been successfully enrolled in the course '" + course.title;
    var s2 := s1 + "'. The course is taught by ";
    var s3 := s2 + teacher.name;
    var s4 := s3 + ". Course Duration: ";
    var s5 := s4 + n;
    var s6 := s5 + " weeks. Schedule: ";
    assert EnrollmentMailToStudent(student, course, teacher).body == s6 + course.schedule;
    ContainsMiddle("Dear " + student.name + ", you have been successfully enrolled in the course '", course.title, []);
    assert s1 + [] == s1;
    ContainsExtend(s1, course.title, "'. The course is taught by ");
    ContainsExtend(s2, course.title, teacher.name);
    ContainsExtend(s3, course.title, ". Course Duration: ");
    ContainsExtend(s4, course.title, n);
    ContainsExtend(s5, course.title, " weeks. Schedule: ");
    ContainsExtend(s6, course.title, course.schedule);
  }

  lemma MailGivesWeeks(student: User, course: Course, teacher: User)
    ensures Contains(EnrollmentMailToStudent(student, course, teacher).body, NatToString(course.durationWeeks) + " weeks")
  {
    var n := NatToString(course.durationWeeks);
    var s4 := "Dear " + student.name + ", you have been successfully enrolled in the course '" + course.title
      + "'. The course is taught by " + teacher.name + ". Course Duration: ";
    var s6 := s4 + n + " weeks. Schedule: ";
    assert EnrollmentMailToStudent(student, course, teacher).body == s6 + course.schedule;
    assert " weeks. Schedule: " == " weeks" + ". Schedule: ";
    assert s6 == s4 + (n + " weeks") + ". Schedule: ";
    ContainsMiddle(s4, n + " weeks", ". Schedule: ");
    ContainsExtend(s6, n + " weeks", course.schedule);
  }

  lemma MailGivesSchedule(student: User, course: Course, teacher: User)
    ensures Contains(EnrollmentMailToStudent(student, course, teacher).body, course.schedule)
  {
    var s6 := "Dear " + student.name + ", you have been successfully enrolled in the course '" + course.title
      + "'. The course is taught by " + teacher.name + ". Course Duration: " + NatToString(course.durationWeeks)
      + " weeks. Schedule: ";
    assert EnrollmentMailToStudent(student, course, teacher).body == s6 + course.schedule;
    ContainsMiddle(s6, course.schedule, []);
    assert s6 + course.schedule + [] == s6 + course.schedule;
  }

  /** Both teacher-facing messages carry the student's roll number. */
  lemma TeacherMailsCarryRollNumber(student: User, rollNumber: string, course: Course, teacher: User)
    ensures Contains(EnrollmentMailToTeacher(student, rollNumber, course, teacher).body, rollNumber)
    ensures Contains(RemovalMailToTeacher(student, rollNumber, course, teacher).body, rollNumber)
  {
    var tail := ") has been enrolled in your course '" + course.title + "'.";
    var head := "Dear " + teacher.name + ", a new student '" + student.name + "' (Roll No: ";
    assert EnrollmentMailToTeacher(student, rollNumber, course, teacher).body == head + rollNumber + tail;
    ContainsMiddle(head, rollNumber, tail);
    var tail' := ") has been removed from your course '" + course.title + "'.";
    var head' := "Dear " + teacher.name + ", student '" + student.name + "' (Roll No: ";
    assert RemovalMailToTeacher(student, rollNumber, course, teacher).body == head' + rollNumber + tail';
    ContainsMiddle(head', rollNumber, tail');
  }

  lemma PrefixOfConcat(a: string, b: string, c: string)
    requires |c| <= |b| && b[..|c|] == c
    ensures (a + b)[..|a| + |c|] == a + c
  {
  }

  /** The welcome message is the credentials variant exactly when the
      password is truthy; an empty password gives the no-password variant. */
  lemma AccountMailCredentialsIffTruthy(user: User, password: Option<string>)
    ensures IsCredentialsVariant(user, AccountMail(user, password).body) <==> Truthy(password)
  {
    var opening := AccountOpening(user);
    if Truthy(password) {
      var tail := CredentialsTail(user, password.value);
      assert tail[..|"credentials"|] == "credentials";
      PrefixOfConcat(opening, tail, "credentials");
    } else {
      var body := opening + NoPasswordTail(user);
      assert body[|opening|] == NoPasswordTail(user)[0] == 'e';
      assert (opening + "credentials")[|opening|] == 'c';
    }
  }

  /** The credentials variant carries the password itself. */
  lemma CredentialsMailCarriesPassword(user: User, password: Option<string>)
    requires Truthy(password)
    ensures Contains(AccountMail(user, password).body, password.value)
  {
    var head := "credentials are:\nEmail: " + user.email + "\nPassword: ";
    var tail := "\nRole: " + RoleDisplay(user.role) + "\n\nPlease login and change your password for security.";
    assert CredentialsTail(user, password.value) == head + password.value + tail;
    ContainsMiddle(head, password.value, tail);
    ContainsPrepend(AccountOpening(user), CredentialsTail(user, password.value), password.value);
  }

  /** A course assignment makes one attempt, to the teacher; an enrollment or a
      removal makes two, the student's first, then the teacher's, all of the
      matching kind. */
  lemma AttemptShapes(student: User, rollNumber: string, course: Course, teacher: User)
    ensures var a := AssignmentAttempts(teacher, course);
      |a| == 1 && a[0].receiver == teacher.id && a[0].kind == CourseAssignmentNotice
    ensures var e := EnrollmentAttempts(student, rollNumber, course, teacher);
      |e| == 2 && e[0].receiver == student.id && e[1].receiver == teacher.id
      && e[0].kind == EnrollmentNotice && e[1].kind == EnrollmentNotice
    ensures var r := RemovalAttempts(student, rollNumber, course, teacher);
      |r| == 2 && r[0].receiver == student.id && r[1].receiver == teacher.id
      && r[0].kind == RemovalNotice && r[1].kind == RemovalNotice
  {
  }

  /** The teacher's attempt is logged whenever the channel accepts it, whatever
      became of the student's. */
  lemma SecondAttemptIndependentOfFirst(attempts: seq<Attempt>, d: Delivery, now: Instant)
    requires |attempts| == 2
    ensures d.second ==> Logged(attempts, d, now)[|Logged(attempts, d, now)| - 1] == Row(attempts[1], now)
    ensures |Logged(attempts, d, now)| == (if d.first then 1 else 0) + (if d.second then 1 else 0)
  {
  }

  // ---- the sending step ----

  /** `send_email_notification`: try the channel; on success append one log
      row and answer true, on failure append nothing and answer false. It
      never raises. */
  method SendEmailNotification(st: Store, a: Attempt, delivered: bool, now: Instant) returns (sent: bool)
    requires st.Valid() && a.receiver in st.users
    modifies st
    ensures st.Valid()
    ensures sent == delivered
    ensures st.Snapshot() == old(st.Snapshot()).(notifications :=
      old(st.notifications) + (if delivered then [Row(a, now)] else []))
  {
    if delivered {
      st.notifications := st.notifications + [Row(a, now)];
    }
    sent := delivered;
  }

  /** Sends the attempts of one notification, in order, each with its own
      verdict; a failed first attempt does not stop the second. */
  method SendAll(st: Store, attempts: seq<Attempt>, d: Delivery, now: Instant)
    requires st.Valid() && |attempts| <= 2
    requires forall i :: 0 <= i < |attempts| ==> attempts[i].receiver in st.users
    modifies st
    ensures st.Valid()
    ensures st.Snapshot() == old(st.Snapshot()).(notifications := old(st.notifications) + Logged(attempts, d, now))
  {
    if |attempts| >= 1 {
      var _ := SendEmailNotification(st, attempts[0], d.first, now);
    }
    if |attempts| == 2 {
      var _ := SendEmailNotification(st, attempts[1], d.second, now);
    }
  }

  method SendEnrollmentNotification(st: Store, student: User, rollNumber: string, course: Course, teacher: User,
                                    d: Delivery, now: Instant)
    requires st.Valid() && student.id in st.users && teacher.id in st.users
    modifies st
    ensures st.Valid()
    ensures st.Snapshot() == old(st.Snapshot()).(notifications :=
      old(st.notifications) + Logged(EnrollmentAttempts(student, rollNumber, course, teacher), d, now))
  {
    SendAll(st, EnrollmentAttempts(student, rollNumber, course, teacher), d, now);
  }

  method SendRemovalNotification(st: Store, student: User, rollNumber: string, course: Course, teacher: User,
                                 d: Delivery, now: Instant)
    requires st.Valid() && student.id in st.users && teacher.id in st.users
    modifies st
    ensures st.Valid()
    ensures st.Snapshot() == old(st.Snapshot()).(notifications :=
      old(st.notifications) + Logged(RemovalAttempts(student, rollNumber, course, teacher), d, now))
  {
    SendAll(st, RemovalAttempts(student, rollNumber, course, teacher), d, now);
  }

  method SendCourseAssignmentNotification(st: Store, teacher: User, course: Course, d: Delivery, now: Instant)
    requires st.Valid() && teacher.id in st.users
    modifies st
    ensures st.Valid()
    ensures st.Snapshot() == old(st.Snapshot()).(notifications :=
      old(st.notifications) + Logged(AssignmentAttempts(teacher, course), d, now))
  {
    SendAll(st, AssignmentAttempts(teacher, course), d, now);
  }

  method SendAccountCreatedNotification(st: Store, user: User, password: Option<string>, d: Delivery, now: Instant)
    requires st.Valid() && user.id in st.users
    modifies st
    ensures st.Valid()
    ensures st.Snapshot() == old(st.Snapshot()).(notifications :=
      old(st.notifications) + Logged(AccountAttempts(user, password), d, now))
  {
    SendAll(st, AccountAttempts(user, password), d, now);
  }
}
