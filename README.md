# Student management backend: a Dafny model

This project models the core of a Django REST backend for academic administration, and proves properties of that model. The backend has three roles: ADMIN, TEACHER and STUDENT. Its core covers:

- **The store** (`Models`): users, teacher profiles, student profiles, courses, enrollments and the notification log. It is held in the class `Models.Store` and read as a value through `Snapshot()`. Its invariant `Valid()` covers foreign keys, one profile per user, unique e-mails and unique roll numbers. Deleting rows follows the source's `on_delete` rules: teacher deletes null the course's teacher; student and course deletes cascade.
- **The notification dispatcher** (`Email`). Each send either succeeds, which appends one log row, or fails silently. The outcome of the mail channel is a parameter, `Delivery(first, second)`: one boolean per send attempt of a dispatch.
- **The save signals** (`Signals`). Each save snapshots the previous teacher or status before the write, then decides which messages the write triggers.
- **The permission predicates** (`Permissions`): the role classes and each object-level check.
- **The enrollment lifecycle**:
  - `EnrollmentSerializers`: validation, creation and the status update;
  - `EnrollmentViews`: the permission table, the queryset, the create gate by role, the drop transition with its seven-day student window, update and retrieve.
- **Courses**:
  - `CourseSerializers`: field checks, create with teacher assignment, update, the active-enrollment count;
  - `CourseViews`: permissions, querysets, and the `students` and `enrollments` actions.
- **Student and teacher profiles** (`StudentViews`, `TeacherViews`): permission tables, querysets, serializer selection, and the detail actions.
- **Accounts**:
  - `UserManager`: `create_user` and `create_superuser`;
  - `UserSerializers`: user creation with the profile its role calls for, and the derived roll number;
  - `UserViews`: the user viewset's permissions and queryset, the name-only update, and the change-password endpoint.

Outside inputs are parameters:

- the clock (`now`, an `Instant` in microseconds);
- new row ids (a fresh `Uuid`, required to be absent from the store);
- e-mail normalisation (a function `string -> string`);
- the mail channel (`Delivery`).

Password hashing is abstracted to `Credential`. `SetPassword(None)` gives an unusable credential. `CheckPassword` succeeds exactly on the raw password that was set.

Requests are modelled as Django REST framework handles them:

- an anonymous caller gets `NotAuthenticated`;
- a view-level permission failure gives `Forbidden403`;
- `get_object` gives `NotFound404` when the row is outside the caller's queryset, and `Forbidden403` when the object-level check fails;
- serializer errors give `BadRequest400`.

Places where the code does not keep a guarantee that other parts of the same code rely on:

- Re-enrollment and re-activation. On the create path, a second ACTIVE row for the same (student, course) is refused (app/enrollment/serializers.py:58-68). The enrollment update serializer (app/enrollment/serializers.py:87-92) accepts any status. So a DROPPED row can be set back to ACTIVE beside another ACTIVE row for the same pair (`EnrollmentSerializers.ReactivationBreaksAtMostOneActive`). Only creation and drop keep at most one ACTIVE row per pair (`ValidatedInsertKeepsAtMostOneActive`, `DroppingKeepsAtMostOneActive`).
- Create refusals. A missing student, a missing course and an existing ACTIVE row are all raised as serializer validation errors, so each is a 400 reply (`Reason.StudentNotFound`, `CourseNotFound`, `AlreadyEnrolled`). The create request may also carry a status, so a row can be created DROPPED.
- The drop window. The refusal text at app/enrollment/views.py:84-87 promises that a student may drop within seven days of enrolling. As written, every student drop ends in a server error (see Findings).
- Password in the welcome message. `send_account_created_notification` has a variant that includes the login credentials (app/core/email_utils.py:112-113). Its only caller, the `post_save` signal (app/notification/signals.py:14-17), always passes no password. So only the variant without credentials is ever sent (`Signals.UserSignalWelcomesWithoutPassword`).
- Clearing a course's teacher. The branch of the course update that clears the teacher (app/course/serializers.py:58-66) cannot be reached: a missing `teacher_id` and an explicit `null` both arrive as `None` and skip the whole block (`CourseSerializers.UpdateNeverClearsTeacher`).

Observations the proofs make explicit:

- Course `students` and `enrollments` actions. A teacher who does not teach the course, or has no teacher profile, gets 404, because the queryset already hides the course. Only a student who can see the course reaches the 403 branch (`CourseViews.DetailActionsByRole`).
- Teacher and user viewsets. The queryset and the object check agree, so a visible object is never refused with 403 (`TeacherViews.VisibleProfilesAreNeverForbidden`, `UserViews.VisibleIffOwnerOrAdmin`).
- A teacher who may see a student gets all of that student's enrollments. This includes rows in other teachers' courses and DROPPED rows (`StudentViews.TeacherGetsAllEnrollmentsOfStudent`).
- Roll numbers come from the first eight hex digits of the user id, so two users can be given the same one. The second profile insert then fails with an integrity error after the user row is already stored (`UserSerializers.RollNumbersCanCollide`, `UserSerializers.CreateWithProfile`).
- E-mail uniqueness is validated on the e-mail as given, but the row is saved with the normalised e-mail. A request can pass validation and still be refused by the unique column (`UserManager.CreateUser`).

## Model

| member | source | states |
|---|---|---|
| Models.RoleDisplay | app/core/models.py:33-37 | ADMIN displays as "Admin", TEACHER as "Teacher" and STUDENT as "Student"; an unknown stored value displays as itself |
| Models.NewUser | app/core/models.py:39-46 | a new user has the given id, e-mail, name, role and credential, is active, and is neither staff nor superuser |
| Models.SetPassword | app/core/models.py:16 | no password gives an unusable credential; a password is kept as the credential's raw value |
| Models.CheckPasswordAfterSet | app/user/views.py:80-86 | after setting `p`, a password check of `q` succeeds iff `p` is exactly `q` |
| Models.DeleteTeacherProfileNullsCourses | app/core/models.py:102-108 | deleting a teacher profile keeps the store valid, keeps every course and enrollment, and sets to null exactly the teacher of that teacher's courses |
| Models.DeleteStudentProfileCascades | app/core/models.py:124-128 | deleting a student profile keeps the store valid, removes exactly that student's enrollments, and keeps at most one ACTIVE row per pair |
| Models.DeleteCourseCascades | app/core/models.py:129-133 | deleting a course keeps the store valid, removes exactly that course's enrollments, and keeps at most one ACTIVE row per pair |
| Email.Row | app/core/email_utils.py:26-30 | a log row records the receiver, the message body, the notification type and the send time |
| Email.LoggedRowsComeFromAttempts | app/core/email_utils.py:16-36 | a dispatch logs no more rows than it attempts sends, and each row is the row of one of its attempts |
| Email.SecondAttemptIndependentOfFirst | app/core/email_utils.py:34-36 | a failed first send does not stop the second one: the rows logged are exactly the successful sends, and a successful second send is logged last |
| Common.NatToStringValue | app/core/email_utils.py:45 | the duration written into a message is the decimal spelling of the number, with no leading zero |
| Email.StudentEnrollmentMailDescribesCourse | app/core/email_utils.py:44-45 | the student's enrollment message contains the course title, "<n> weeks" and the schedule |
| Email.TeacherMailsCarryRollNumber | app/core/email_utils.py:54-81 | the teacher's enrollment message and the teacher's removal message both contain the student's roll number |
| Email.AccountMailCredentialsIffTruthy | app/core/email_utils.py:112-115 | the account message is the credentials variant iff the password is given and non-empty |
| Email.CredentialsMailCarriesPassword | app/core/email_utils.py:112-113 | when a password is given, the account message contains it |
| Email.AttemptShapes | app/core/email_utils.py:39-103 | enrollment and removal dispatches address the student first and then the teacher, with the ENROLLMENT or REMOVAL type; assignment addresses the teacher once with COURSE_ASSIGNMENT |
| Email.SendEmailNotification | app/core/email_utils.py:12-36 | reports whether the mail went out; appends one log row exactly when it did, and changes nothing else |
| Email.SendAll | app/core/email_utils.py:47-62 | the sends of one dispatch run in order; the log grows by exactly the rows of the successful sends |
| Email.SendEnrollmentNotification | app/core/email_utils.py:39-62 | logs the student's and the teacher's enrollment messages that were delivered, and nothing else changes |
| Email.SendRemovalNotification | app/core/email_utils.py:65-88 | logs the student's and the teacher's removal messages that were delivered, and nothing else changes |
| Email.SendCourseAssignmentNotification | app/core/email_utils.py:91-103 | logs the teacher's assignment message if delivered, and nothing else changes |
| Email.SendAccountCreatedNotification | app/core/email_utils.py:106-122 | logs the welcome message if delivered, and nothing else changes |
| Signals.PreviousTeacher | app/notification/signals.py:25-36 | the teacher snapshotted before a course save: the stored row's teacher, or none for a new course |
| Signals.PreviousStatus | app/notification/signals.py:61-72 | the status snapshotted before an enrollment save: the stored row's status, or none for a new row |
| Signals.CourseSignalIffTeacherChanged | app/notification/signals.py:40-57 | a course save sends one assignment message iff the saved teacher is set and differs from the previous one; it sends none when the teacher is cleared or saved unchanged |
| Signals.EnrollmentCreatedSignal | app/notification/signals.py:76-91 | creating an ACTIVE row in a course with a teacher dispatches the enrollment pair; a DROPPED row or a course without a teacher dispatches nothing |
| Signals.EnrollmentUpdatedSignal | app/notification/signals.py:93-107 | updating a row dispatches the removal pair iff it was ACTIVE before, is DROPPED now, and the course has a teacher |
| Signals.UserSignalWelcomesWithoutPassword | app/notification/signals.py:8-21 | saving a new user dispatches one welcome message without credentials; saving a stored user dispatches nothing |
| Signals.SaveUser | app/notification/signals.py:7-21 | the save succeeds iff no other user holds the e-mail; it then stores the user and logs what the signal dispatched; a refused save changes nothing |
| Signals.SaveCourse | app/notification/signals.py:24-57 | stores the course and logs exactly the dispatch the before/after teacher comparison calls for |
| Signals.SaveEnrollment | app/notification/signals.py:60-107 | stores the row and logs exactly the dispatch the before/after status comparison calls for |
| Permissions.RoleClassesIff | app/core/permissions.py:6-36 | IsAdminUser, IsTeacherUser and IsStudentUser pass iff the caller is authenticated with that role; every other permission class passes iff the caller is authenticated |
| Permissions.AdminPassesEveryObjectCheck | app/core/permissions.py:39-182 | an ADMIN passes every object-level check on every object |
| Permissions.OtherRoleDeniedEveryObjectCheck | app/core/permissions.py:59-182 | a user whose role is none of the three fails every teacher, student, course and enrollment object check |
| Permissions.OwnerCheckOrder | app/core/permissions.py:45-56 | for a non-admin, IsOwnerOrAdminUser compares the object's owning user first, then its id, and refuses an object with neither |
| Permissions.TeacherChecksAreAboutTeaching | app/core/permissions.py:122-182 | for a teacher, CanManageCourse, CanManageEnrollment and CanViewEnrollment pass iff the teacher has a profile and teaches the course; without a profile all fail |
| Permissions.StudentManagesOnlyOwnDestroy | app/core/permissions.py:143-173 | a student passes CanManageEnrollment iff the action is destroy and the row is their own, and can then also view it |
| Permissions.TeacherSeesOnlyOwnStudents | app/core/permissions.py:84-113 | a teacher passes IsStudentOwnerOrTeacherOrAdmin on a student iff the teacher has a profile and the student has an ACTIVE enrollment in one of the teacher's courses |
| EnrollmentSerializers.Validate | app/enrollment/serializers.py:41-70 | a validated request names an existing student and course with no ACTIVE enrollment between them |
| EnrollmentSerializers.NewEnrollment | app/enrollment/serializers.py:72-84 | the new row links the student and course, is stamped with the creation time, and takes the requested status or ACTIVE by default |
| EnrollmentSerializers.ValidateReportsStudentFirst | app/enrollment/serializers.py:46-56 | a missing student is reported before a missing course |
| EnrollmentSerializers.ValidateRefusesOnlyActiveDuplicates | app/enrollment/serializers.py:58-68 | for an existing student and course, validation passes iff they have no ACTIVE row; DROPPED rows never block re-enrollment |
| EnrollmentSerializers.ValidatedInsertKeepsAtMostOneActive | app/enrollment/serializers.py:41-84 | inserting a validated row keeps at most one ACTIVE row per (student, course) |
| EnrollmentSerializers.DroppingKeepsAtMostOneActive | app/enrollment/views.py:95-96 | setting a row to DROPPED keeps at most one ACTIVE row per pair |
| EnrollmentSerializers.ReactivationBreaksAtMostOneActive | app/enrollment/serializers.py:87-92 | the status update can set a DROPPED row back to ACTIVE beside another ACTIVE row for the same pair, which breaks the invariant |
| EnrollmentSerializers.CreateEnrollment | app/enrollment/serializers.py:72-84 | stores the new row and logs the dispatch its creation triggers; the store stays valid |
| EnrollmentSerializers.UpdateEnrollmentStatus | app/enrollment/serializers.py:87-92 | writes only the status, or keeps the old one when none is given, and logs the dispatch the status change triggers |
| EnrollmentViews.PermissionTable | app/enrollment/views.py:15-24 | create, destroy, update and partial update use CanManageEnrollment; list needs authentication only; every other action uses CanViewEnrollment |
| EnrollmentViews.VisibleIffViewable | app/enrollment/views.py:32-50 | in a valid store, the queryset shows a row iff CanViewEnrollment passes on it |
| EnrollmentViews.MissingProfileSeesNothing | app/enrollment/views.py:36-49 | a teacher or student without their profile sees no enrollment |
| EnrollmentViews.GetObject | app/enrollment/views.py:32-50 | a fetched row is stored and visible to the caller; otherwise the reply is 404, or 403 from the action's object check |
| EnrollmentViews.CreateGateByRole | app/enrollment/views.py:52-75 | an admin always passes; a teacher passes only for a course they teach and is refused without a profile; every other role is refused with 403 |
| EnrollmentViews.StudentDropWindow | app/enrollment/views.py:83-87 | a student's drop is refused for the window iff the row is strictly older than seven days; exactly seven days or six is allowed, eight is refused |
| EnrollmentViews.WindowCheckedBeforeStatus | app/enrollment/views.py:83-93 | a student on an expired DROPPED row gets the window error, not the status error |
| EnrollmentViews.StaffHaveNoWindow | app/enrollment/views.py:83-93 | for admins and teachers the result does not depend on the time, and the drop is allowed iff the row is ACTIVE |
| EnrollmentViews.DroppedRowCannotBeDropped | app/enrollment/views.py:89-93 | dropping a DROPPED row fails with a 400, whoever asks and whenever |
| EnrollmentViews.StudentDropFailsAsWritten | app/enrollment/views.py:83-87 | as written (with `timezone` imported from `time` at line 2), a student drop inside the window ends in a 500 where the rule allows it; for other roles the written and intended checks agree |
| EnrollmentViews.CreateView | app/enrollment/views.py:52-77 | succeeds iff the caller passes the role gate and validation; it then stores the new row and logs its dispatch, otherwise it changes nothing; it keeps at most one ACTIVE row per pair |
| EnrollmentViews.DestroyView | app/enrollment/views.py:79-97 | fetch, then the window and status checks; on 204 only that row's status becomes DROPPED and the removal dispatch is logged; otherwise nothing changes; it keeps at most one ACTIVE row per pair |
| EnrollmentViews.UpdateView | app/enrollment/views.py:15-30 | succeeds iff the caller may fetch and manage the row; it then writes only the status |
| EnrollmentViews.RetrieveView | app/enrollment/views.py:15-50 | anonymous callers are refused; a retrieved row is visible and passes CanViewEnrollment |
| CourseSerializers.TextError | app/core/models.py:98-101 | a text field passes iff it is omitted on a partial update, or given, non-empty and within its maximum length |
| CourseSerializers.CourseErrorsFull | app/core/models.py:97-101 | a full course request passes iff the title is non-empty and at most 255 characters, the description is non-empty, the duration is given and at most 2147483647, and the schedule is non-empty and at most 500 characters |
| CourseSerializers.CourseErrorsPartial | app/course/serializers.py:52-56 | a partial update reports no error for an omitted title, description, duration or schedule, so an empty partial update passes |
| CourseSerializers.CourseErrorsReportTheField | app/core/models.py:98-101 | a 256-character title is reported too long; an empty schedule is reported blank; a duration of 2147483648 is reported too large, and 2147483647 is accepted |
| CourseSerializers.ResolveTeacher | app/course/serializers.py:42-48 | the course gets a teacher iff the given id names a teacher profile, and then exactly that one; an unknown id is ignored |
| CourseSerializers.UpdatedCourseWritesSuppliedFields | app/course/serializers.py:52-69 | an update writes each supplied field and keeps every omitted one |
| CourseSerializers.UpdateNeverClearsTeacher | app/course/serializers.py:58-66 | an update sets the teacher only to a known teacher id and otherwise keeps it, so an assigned course never loses its teacher |
| CourseSerializers.UpdateAnnouncesOnlyNewTeacher | app/course/serializers.py:52-69 | an update sends an assignment message iff it puts in a teacher different from the stored one |
| CourseSerializers.EnrolledCountAfterInsert | app/course/serializers.py:33-36 | inserting a row raises a course's active-enrollment count by one iff the row is ACTIVE in that course |
| CourseSerializers.EnrolledCountAfterDrop | app/course/serializers.py:85-88 | dropping an ACTIVE row lowers its course's count by exactly one |
| CourseSerializers.CreateCourse | app/course/serializers.py:38-50 | stores the course with the resolved teacher and logs one assignment message iff a known teacher was given |
| CourseSerializers.UpdateCourse | app/course/serializers.py:52-69 | stores the updated course and logs the assignment dispatch for a changed teacher |
| CourseViews.PermissionTable | app/course/views.py:16-24 | create, update, partial update and destroy are admin-only; every other action needs authentication only; a teacher cannot create |
| CourseViews.VisibleByRole | app/course/views.py:32-52 | an admin sees every course, a teacher the courses they teach, a student the courses they have an ACTIVE enrollment in, anyone else none |
| CourseViews.GetObject | app/course/views.py:32-52 | a course is fetched iff it is visible and the student join does not repeat it; an invisible course is 404, a repeated one is a server error (500) because the lookup finds more than one row |
| CourseViews.InvariantRulesOutRepeats | app/course/views.py:42-49 | while each (student, course) has at most one ACTIVE row, the join never repeats a course, so every visible course is fetched |
| CourseViews.TwoActiveRowsGiveServerError | app/course/views.py:42-49 | two ACTIVE rows of one student in one course make the detail lookup and both the `students` and `enrollments` actions fail with a server error |
| CourseViews.DetailActionsByRole | app/course/views.py:54-101 | an admin gets the listing of any course; a teacher gets it for a course they teach and 404 otherwise; a student gets 404 for a course they cannot see, 500 for a course the join repeats, and 403 otherwise; `students` and `enrollments` give the same refusal or both succeed |
| CourseViews.Students | app/course/views.py:54-77 | an anonymous caller is refused; a returned listing holds exactly the students with an ACTIVE row in the course |
| CourseViews.Enrollments | app/course/views.py:79-101 | an anonymous caller is refused; a returned listing holds every row of the course, whatever its status |
| CourseViews.CourseStudentsAreActiveEnrollees | app/course/views.py:74-75 | a student is listed iff they have an ACTIVE row in the course, and every listed student has a profile |
| CourseViews.CourseEnrollmentsAnyStatus | app/course/views.py:99 | a row is listed iff it belongs to the course; the ACTIVE rows are among them |
| CourseViews.EnrolledCountMatchesStudents | app/course/serializers.py:33-36 | while at most one row per pair is ACTIVE, the enrolled count equals the number of students the `students` action lists |
| CourseViews.CreateView | app/course/serializers.py:38-50 | succeeds iff an admin sends valid fields; it then stores exactly the sent title, description, duration and schedule under the new id with the resolved teacher, and logs the assignment messages to that teacher, if any; otherwise it changes nothing |
| CourseViews.UpdateView | app/course/serializers.py:52-69 | succeeds iff an admin updates a stored course with valid fields; it then stores the updated course, otherwise it changes nothing |
| CourseViews.DestroyView | app/course/views.py:16-24 | succeeds iff an admin deletes a stored course; the course and its enrollments are then removed |
| StudentViews.PermissionTable | app/student/views.py:14-25 | list needs authentication only; create and destroy are admin-only; every other action uses IsStudentOwnerOrTeacherOrAdmin |
| StudentViews.SerializerSelection | app/student/views.py:27-35 | the update serializer goes to exactly a student updating; every other request gets the plain one |
| StudentViews.StudentRewritesRollNumberAsWritten | app/student/serializers.py:33-39 | as written, a student's own update may write the roll number, which an admin's update may not |
| StudentViews.OnlyAdminRewritesRegistration | app/student/serializers.py:33-34 | with the selection the update serializer documents, roll number, batch or enrollment year are writable iff an admin updates; phone, address and name always are |
| StudentViews.VisibleIffPermitted | app/student/views.py:37-59 | in a valid store, the queryset shows a profile iff IsStudentOwnerOrTeacherOrAdmin passes on it |
| StudentViews.WhoSeesNothing | app/student/views.py:37-59 | anonymous callers, unknown roles and teachers without a profile see no student; a student sees at most themself |
| StudentViews.GetObject | app/student/views.py:37-59 | a fetched profile is stored and visible; otherwise the reply is 404 or 403 |
| StudentViews.VisibleProfilesAreNeverForbidden | app/student/views.py:37-59 | in a valid store a fetch succeeds iff the profile is visible, so the object check never adds a 403 |
| StudentViews.Enrollments | app/student/views.py:61-67 | an anonymous caller is refused; a returned listing belongs to a visible student and holds all their rows |
| StudentViews.TeacherGetsAllEnrollmentsOfStudent | app/student/views.py:61-67 | a teacher who can see a student gets every row of that student, including rows of other teachers' courses and DROPPED rows |
| TeacherViews.PermissionTable | app/teacher/views.py:23-31 | list needs authentication only; create and destroy are admin-only; every other action uses IsTeacherOwnerOrAdmin |
| TeacherViews.Create | app/teacher/views.py:16-21 | create never succeeds; an admin gets 405 |
| TeacherViews.CreateAlwaysRefused | app/teacher/views.py:16-31 | create answers 401 to anonymous callers, 403 to non-admins and 405 to admins |
| TeacherViews.VisibleByRole | app/teacher/views.py:42-51 | an admin sees every teacher profile, a teacher only their own, anyone else none |
| TeacherViews.GetObject | app/teacher/views.py:42-51 | a fetched profile is stored; otherwise the reply is 404 or 403 |
| TeacherViews.VisibleProfilesAreNeverForbidden | app/teacher/views.py:42-51 | a fetch succeeds iff the profile is visible, and fails only with 404 |
| TeacherViews.Detail | app/teacher/views.py:53-78 | the detail actions refuse anonymous callers and return their listing only for a visible teacher |
| TeacherViews.TeacherStudentsAreTaughtStudents | app/teacher/views.py:61-69 | `students` lists a student iff they have an ACTIVE row in one of the teacher's courses |
| TeacherViews.OwnListingsMatchOtherQuerysets | app/teacher/views.py:53-78 | for a teacher's own profile, `courses`, `students` and `enrollments` list exactly what the course, student and enrollment querysets show that teacher |
| UserManager.CreateUser | app/core/models.py:10-18 | a missing or empty e-mail raises ValueError; a normalised e-mail already in use raises IntegrityError; otherwise the user is stored with the normalised e-mail and the welcome message is logged; a failure changes nothing |
| UserManager.CreateSuperuser | app/core/models.py:20-27 | the same outcomes as create_user, with the stored user staff, superuser and ADMIN; the welcome message uses the role as first saved |
| UserSerializers.RequiredTextError | app/user/serializers.py:4-12 | a required field passes iff it is given, non-empty and within its length bounds |
| UserSerializers.UserErrorsIff | app/user/serializers.py:4-12 | a creation request passes iff the e-mail is non-empty and unused, the name is 1 to 255 characters, the role is one of the three, and the password has at least five characters |
| UserSerializers.PasswordLengthBoundary | app/user/serializers.py:7 | a four-character password is too short, a five-character one passes |
| UserSerializers.RollNumberFor | app/user/serializers.py:27 | the roll number is "STU" followed by the id's first eight hex digits in upper case, 11 characters in all |
| UserSerializers.RollNumberDeterminedByPrefix | app/user/serializers.py:27 | two ids give the same roll number iff their first eight hex digits agree |
| UserSerializers.RollNumbersCanCollide | app/user/serializers.py:27 | two different ids can give the same roll number |
| UserSerializers.NewStudentProfile | app/user/serializers.py:24-30 | a new student profile has the derived roll number, batch "2024", year 2024, and no phone or address |
| UserSerializers.ProfileUpdateKeepsIdentity | app/user/serializers.py:35-41 | the profile update can change only the name; with no name the user is unchanged |
| UserSerializers.CreateAndSetPassword | app/user/serializers.py:14-19 | creates the user without a password, so the welcome has no credentials, then stores the password by a second save that sends nothing |
| UserSerializers.CreateWithProfile | app/user/serializers.py:14-32 | a teacher gets a blank profile; a student gets the derived profile unless the roll number is taken, in which case the result is IntegrityError with the user kept; other roles get none; courses and enrollments are untouched |
| UserSerializers.AddProfile | app/user/serializers.py:21-30 | a teacher user gets a blank teacher profile; a student user gets the profile with the derived roll number, batch "2024" and year 2024 unless another student holds that roll number, in which case nothing is added; any other role gets none; users, courses, enrollments and the log are untouched |
| UserViews.PermissionTable | app/user/views.py:21-29 | create and list are admin-only; every other action uses IsOwnerOrAdminUser |
| UserViews.GetObject | app/user/views.py:37-43 | a fetched user is stored and visible; otherwise the reply is 404 or 403 |
| UserViews.VisibleIffOwnerOrAdmin | app/user/views.py:37-43 | the queryset and IsOwnerOrAdminUser agree; a fetch succeeds iff the caller is an admin or the user themself, and otherwise gives 404 |
| UserViews.UpdateView | app/user/views.py:31-35 | succeeds iff the caller may fetch the user and the name is valid; it then writes only the name |
| UserViews.ChangePasswordErrors | app/user/serializers.py:52-56 | an omitted old or new password is reported as required |
| UserViews.ChangePasswordErrorsIff | app/user/serializers.py:52-56 | the fields pass iff the old password is non-empty and the new one has at least five characters |
| UserViews.ChangePassword | app/user/views.py:74-94 | invalid fields give 400; a wrong old password gives 400 with nothing changed; otherwise only the password changes, the new one checks, and an old one that differs no longer does |

## Left out

- Mail transport, logging and the `print` on failure are not modelled. Whether each send succeeds is the `Delivery` parameter.
- Password hashing is abstracted to `Credential`. `normalize_email` is a parameter. UUID generation is a fresh id the caller supplies.
- `created_at`, `updated_at` and `sent_at` come from the clock parameter `now`. Timestamps the code never reads are not kept.
- UserSerializers.UserErrorsIff: does not check the e-mail's format (Django's `EmailField` validator), because that is a regular expression outside the modelled behaviour; any non-empty string counts as an e-mail.
- UserSerializers.RequiredTextError: does not model DRF's whitespace trimming of `CharField` input; strings are checked as given.
- CourseSerializers.TextError: does not model DRF's whitespace trimming of `CharField` input, so a title, description or schedule of only spaces counts as non-blank here, where DRF would report it blank.
- CourseSerializers.CourseErrorsFull: does not model DRF's whitespace trimming either; the lengths are checked on the strings as given. The duration is a `nat`, so a negative duration cannot be expressed; DRF's integer parsing of request text is not modelled.
- Response bodies (the serializers' output fields, the nested teacher, student and course renderings, error messages) are not modelled. Replies are status codes with a reason, and listings are sets of ids.
- Pagination and ordering of list responses are not modelled.
- The student course queryset joins through enrollments and can repeat a course. The listings are sets, so they drop the repeats; the detail lookup on a repeated course is modelled as the server error it raises (`CourseViews.GetObject`).
- The student and teacher profile updates (`StudentProfileSerializer.update` and the teacher update serializer writing fields and the nested user name) are not modelled as writes. `StudentViews` models which serializer each request gets and which fields it makes writable.
- `teacher/views.py` imports `TeacherProfileUpdateSerializer`, which the teacher serializers do not define, so that module fails to import. The model treats the teacher viewset as if the import resolved.
- ProfileAPIView (GET and PATCH on the caller's own user), the account login and token views, the notification list view, admin registration, URL routing and the `wait_for_db` command are not part of this model.
- Course serializer selection by action (the list serializer versus the full one) affects only output fields and is not modelled.
- Concurrency and transactions are not modelled. Each request runs alone against the store, so the check-then-insert race on duplicate ACTIVE enrollments is out of scope.

## Findings

| source | as written | input that shows it | evidently intended | confidence | as-written member | corrected member |
|---|---|---|---|---|---|---|
| app/enrollment/views.py:2 | `from time import timezone` imports an integer (the local UTC offset), so `timezone.now()` at line 83 raises for every student destroy | a student drops their own ACTIVE enrollment one hour after creating it; the reply is a server error instead of 204 | `django.utils.timezone`, so a student may drop within seven days of creation | high, not executed | EnrollmentViews.StudentDropFailsAsWritten | EnrollmentViews.StudentDropWindow |
| app/student/views.py:33-34 | a STUDENT updating their profile gets `StudentProfileUpdateSerializer`, which has no read-only fields | a student sends PATCH with a new `roll_number` on their own profile; the serializer accepts the field | that serializer's docstring says it is for the admin to update the non-editable fields, so the admin gets it and a student keeps them read-only | medium, not executed | StudentViews.StudentRewritesRollNumberAsWritten | StudentViews.OnlyAdminRewritesRegistration |
