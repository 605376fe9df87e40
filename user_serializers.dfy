/** The user serializers: input checks, the roll number derived from a
    user id, user creation with the profile its role calls for, and the
    limited profile update. */
module UserSerializers {
  import opened Common
  import opened Models
  import opened Email
  import opened Signals
  import opened UserManager

  const PasswordMinLength: nat := 5
  const NameMaxLength: nat := 255
  const DefaultBatch: string := "2024"
  const DefaultEnrollmentYear: nat := 2024

  /** The writable fields of a user-creation request. */
  datatype UserInput = UserInput(
    email: Option<string>,
    name: Option<string>,
    role: Option<Role>,
    password: Option<string>)

  datatype UserField = EmailKey | NameKey | RoleKey | PasswordKey

  /** One required text field: present, not blank, and at least `minLength`
      and at most `maxLength` characters when those bounds exist. */
  function RequiredTextError(v: Option<string>, minLength: nat, maxLength: Option<nat>): (err: Option<Reason>)
    ensures err.None? <==>
      v.Some? && |v.value| > 0 && |v.value| >= minLength && (maxLength.Some? ==> |v.value| <= maxLength.value)
  {
    if v.None? then Some(FieldRequired)
    else if |v.value| == 0 then Some(FieldBlank)
    else if |v.value| < minLength then Some(FieldTooShort)
    else if maxLength.Some? && |v.value| > maxLength.value then Some(FieldTooLong)
    else None
  }

  /** The errors of every field of a creation request: the e-mail is
      required and not already held by a user, the role must be one of the
      three choices, the password at least five characters. */
  function UserErrors(db: Db, input: UserInput): map<UserField, Reason> {
    var email :=
      if RequiredTextError(input.email, 0, None).Some? then RequiredTextError(input.email, 0, None)
      else if EmailInUse(db.users, input.email.value) then Some(EmailTaken)
      else None;
    var name := RequiredTextError(input.name, 0, Some(NameMaxLength));
    var role :=
      if input.role.None? then Some(FieldRequired)
      else if input.role.value.OtherRole? then Some(InvalidChoice)
      else None;
    var password := RequiredTextError(input.password, PasswordMinLength, None);
    (if email.Some? then map[EmailKey := email.value] else map[])
    + (if name.Some? then map[NameKey := name.value] else map[])
    + (if role.Some? then map[RoleKey := role.value] else map[])
    + (if password.Some? then map[PasswordKey := password.value] else map[])
  }

  /** `f'STU{user.id.hex[:8].upper()}'`. */
  function RollNumberFor(id: Uuid): (roll: string)
    ensures |roll| == 11 && roll[..3] == "STU"
    ensures forall i :: 3 <= i < 11 ==> IsUpperHex(roll[i]) && roll[i] == UpperHex(id[i - 3])
  {
    "STU" + UpperHexString(id[..8])
  }

  /** The profile a STUDENT user is given. */
  function NewStudentProfile(id: Uuid): (p: StudentProfile)
    ensures p.rollNumber == RollNumberFor(id) && p.batch == "2024" && p.enrollmentYear == 2024
    ensures p.phone.None? && p.address.None?
  {
    StudentProfile(RollNumberFor(id), DefaultBatch, DefaultEnrollmentYear, None, None)
  }

  /** `UserProfileSerializer` on an update: only the name is writable; id,
      e-mail and role are read-only. */
  function ProfileUpdate(u: User, name: Option<string>): User {
    u.(name := name.GetOr(u.name))
  }

  // ---- properties ----

  /** A creation request passes iff the e-mail is non-empty and free, the
      name is non-empty and short enough, the role is a known one and the
      password has at least five characters. */
  lemma UserErrorsIff(db: Db, input: UserInput)
    ensures UserErrors(db, input) == map[] <==>
      && input.email.Some? && input.email.value != "" && !EmailInUse(db.users, input.email.value)
      && input.name.Some? && 0 < |input.name.value| <= NameMaxLength
      && input.role.Some? && !input.role.value.OtherRole?
      && input.password.Some? && |input.password.value| >= PasswordMinLength
  {
    var errs := UserErrors(db, input);
    if errs == map[] {
      assert EmailKey !in errs && NameKey !in errs && RoleKey !in errs && PasswordKey !in errs;
    }
  }

  /** A four-character password is refused as too short, a five-character
      one is accepted. */
  lemma PasswordLengthBoundary(db: Db, input: UserInput)
    ensures input.password == Some("abcd") ==>
      PasswordKey in UserErrors(db, input) && UserErrors(db, input)[PasswordKey] == FieldTooShort
    ensures input.password == Some("abcde") ==> PasswordKey !in UserErrors(db, input)
  {
  }

  /** Two ids give the same roll number iff their first eight hex digits
      agree. */
  lemma RollNumberDeterminedByPrefix(a: Uuid, b: Uuid)
    ensures RollNumberFor(a) == RollNumberFor(b) <==> a[..8] == b[..8]
  {
    var ra, rb := RollNumberFor(a), RollNumberFor(b);
    if ra == rb {
      forall i | 0 <= i < 8 ensures a[i] == b[i] {
        assert ra[i + 3] == rb[i + 3];
        UpperHexInjective(a[i], b[i]);
      }
    }
  }

  /** Distinct users can be given the same roll number, so the unique column
      can refuse a student profile. */
  lemma RollNumbersCanCollide()
    ensures exists a: Uuid, b: Uuid :: a != b && RollNumberFor(a) == RollNumberFor(b)
  {
    var a: Uuid := "00000000000000000000000000000000";
    var b: Uuid := a[31 := '1'];
    assert a[31] != b[31];
    RollNumberDeterminedByPrefix(a, b);
    assert a[..8] == b[..8];
  }

  /** The profile update can change only the name. */
  lemma ProfileUpdateKeepsIdentity(u: User, name: Option<string>)
    ensures ProfileUpdate(u, name) == u.(name := ProfileUpdate(u, name).name)
    ensures name.Some? ==> ProfileUpdate(u, name).name == name.value
    ensures name.None? ==> ProfileUpdate(u, name) == u
  {
  }

  // ---- the write ----

  /** The first half of `UserSerializer.create`: create the user through
      the manager without a password (the welcome message goes out then),
      then set the password and save again, which sends nothing. */
  method CreateAndSetPassword(st: Store, email: string, name: string, role: Role, password: string,
                              id: Uuid, normalize: string -> string, d: Delivery, now: Instant)
    returns (r: Result<User, Failure>)
    requires st.Valid() && id !in st.users
    modifies st
    ensures st.Valid()
    ensures email == "" ==> r == Err(ValueError)
    ensures email != "" && EmailInUse(old(st.users), normalize(email)) ==> r == Err(IntegrityError)
    ensures r.Err? ==> st.Snapshot() == old(st.Snapshot())
    ensures r.Ok? <==> email != "" && !EmailInUse(old(st.users), normalize(email))
    ensures r.Ok? ==>
      var created := NewUser(id, normalize(email), name, role, Unusable);
      && r.value == created.(password := SetPassword(Some(password)))
      && st.Snapshot() == old(st.Snapshot()).(users := old(st.users)[id := r.value],
           notifications := old(st.notifications) + Logged(AccountAttempts(created, None), d, now))
  {
    ghost var before := st.Snapshot();
    r := CreateUser(st, Some(email), None, name, role, id, normalize, d, now);
    if r.Err? {
      return;
    }
    ghost var first := r.value;
    ghost var mid := st.Snapshot();
    var u := r.value.(password := SetPassword(Some(password)));
    ResaveFindsNoOtherHolder(before.users, first, u);
    var saved := SaveUser(st, u, d, now);
    SecondSaveOverwrites(before, mid, st.Snapshot(), first, u, Logged(AccountAttempts(first, None), d, now), d, now);
    r := Ok(u);
  }

  /** `UserSerializer.create`: the user with its password, then the profile
      its role calls for: a blank teacher profile, or a student profile with
      the derived roll number, batch "2024" and year 2024. A roll number
      another student already holds makes the profile insert fail after the
      user is stored. */
  method CreateWithProfile(st: Store, email: string, name: string, role: Role, password: string,
                           id: Uuid, normalize: string -> string, d: Delivery, now: Instant)
    returns (r: Result<User, Failure>)
    requires st.Valid() && id !in st.users
    modifies st
    ensures st.Valid()
    ensures st.courses == old(st.courses) && st.enrollments == old(st.enrollments)
    ensures (email == "" || EmailInUse(old(st.users), normalize(email))) ==> st.Snapshot() == old(st.Snapshot())
    ensures email == "" ==> r == Err(ValueError)
    ensures email != "" && EmailInUse(old(st.users), normalize(email)) ==> r == Err(IntegrityError)
    ensures email != "" && !EmailInUse(old(st.users), normalize(email)) ==>
      var created := NewUser(id, normalize(email), name, role, Unusable);
      var u := created.(password := SetPassword(Some(password)));
      && st.users == old(st.users)[id := u]
      && st.notifications == old(st.notifications) + Logged(AccountAttempts(created, None), d, now)
      && (role == Teacher ==>
            r == Ok(u) && st.teachers == old(st.teachers)[id := BlankTeacherProfile] && st.students == old(st.students))
      && (role == Student && !RollNumberInUse(old(st.students), RollNumberFor(id)) ==>
            r == Ok(u) && st.students == old(st.students)[id := NewStudentProfile(id)] && st.teachers == old(st.teachers))
      && (role == Student && RollNumberInUse(old(st.students), RollNumberFor(id)) ==>
            r == Err(IntegrityError) && st.students == old(st.students) && st.teachers == old(st.teachers))
      && (role != Teacher && role != Student ==>
            r == Ok(u) && st.students == old(st.students) && st.teachers == old(st.teachers))
  {
    r := CreateAndSetPassword(st, email, name, role, password, id, normalize, d, now);
    if r.Err? {
      return;
    }
    var added := AddProfile(st, id, role);
    if !added {
      r := Err(IntegrityError);
    }
  }

  /** The second half of `UserSerializer.create`: the profile the stored
      user's role calls for. Only the profile tables change; `added` is
      false when the unique roll-number column refuses the student profile. */
  method AddProfile(st: Store, id: Uuid, role: Role) returns (added: bool)
    requires st.Valid() && id in st.users
    modifies st
    ensures st.Valid()
    ensures st.users == old(st.users) && st.notifications == old(st.notifications)
    ensures st.courses == old(st.courses) && st.enrollments == old(st.enrollments)
    ensures role == Teacher ==>
      added && st.teachers == old(st.teachers)[id := BlankTeacherProfile] && st.students == old(st.students)
    ensures role == Student && !RollNumberInUse(old(st.students), RollNumberFor(id)) ==>
      added && st.students == old(st.students)[id := NewStudentProfile(id)] && st.teachers == old(st.teachers)
    ensures role == Student && RollNumberInUse(old(st.students), RollNumberFor(id)) ==>
      !added && st.students == old(st.students) && st.teachers == old(st.teachers)
    ensures role != Teacher && role != Student ==>
      added && st.students == old(st.students) && st.teachers == old(st.teachers)
  {
    ghost var db := st.Snapshot();
    added := true;
    if role == Teacher {
      AddingTeacherProfileKeepsValid(db, id, BlankTeacherProfile);
      st.teachers := st.teachers[id := BlankTeacherProfile];
      assert st.Snapshot() == db.(teachers := db.teachers[id := BlankTeacherProfile]);
    } else if role == Student {
      var profile := NewStudentProfile(id);
      if RollNumberInUse(st.students, profile.rollNumber) {
        added := false;
        return;
      }
      AddingStudentProfileKeepsValid(db, id, profile);
      st.students := st.students[id := profile];
      assert st.Snapshot() == db.(students := db.students[id := profile]);
    }
  }

  lemma AddingTeacherProfileKeepsValid(db: Db, id: Uuid, p: TeacherProfile)
    requires db.Valid() && id in db.users
    ensures db.(teachers := db.teachers[id := p]).Valid()
  {
  }

  lemma AddingStudentProfileKeepsValid(db: Db, id: Uuid, p: StudentProfile)
    requires db.Valid() && id in db.users && !RollNumberInUse(db.students, p.rollNumber)
    ensures db.(students := db.students[id := p]).Valid()
  {
  }
}
