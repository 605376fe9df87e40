/** The user manager: creating a regular user and a superuser. E-mail
    normalisation is a parameter, since only its result matters here. */
module UserManager {
  import opened Common
  import opened Models
  import opened Email
  import opened Signals

  /** The exceptions these operations can end in: the missing e-mail, and
      the unique e-mail column refusing the row. */
  datatype Failure = ValueError | IntegrityError

  /** `create_user`: refuse a missing or empty e-mail, normalise it, set the
      password (None leaves it unusable) and save, which sends the welcome
      message without a password. */
  method CreateUser(st: Store, email: Option<string>, password: Option<string>, name: string, role: Role,
                    id: Uuid, normalize: string -> string, d: Delivery, now: Instant)
    returns (r: Result<User, Failure>)
    requires st.Valid() && id !in st.users
    modifies st
    ensures st.Valid()
    ensures (email.None? || email == Some("")) ==> r == Err(ValueError)
    ensures email.Some? && email.value != "" && EmailInUse(old(st.users), normalize(email.value)) ==>
      r == Err(IntegrityError)
    ensures r.Ok? <==> email.Some? && email.value != "" && !EmailInUse(old(st.users), normalize(email.value))
    ensures r.Err? ==> st.Snapshot() == old(st.Snapshot())
    ensures r.Ok? ==>
      && r.value == NewUser(id, normalize(email.value), name, role, SetPassword(password))
      && st.Snapshot() == old(st.Snapshot()).(users := old(st.users)[id := r.value],
           notifications := old(st.notifications) + Logged(AccountAttempts(r.value, None), d, now))
  {
    if email.None? || email.value == "" {
      return Err(ValueError);
    }
    var u := NewUser(id, normalize(email.value), name, role, SetPassword(password));
    var saved := SaveUser(st, u, d, now);
    if !saved {
      return Err(IntegrityError);
    }
    assert UserSignal(old(st.Snapshot()), u) == AccountAttempts(u, None);
    r := Ok(u);
  }

  /** `create_superuser`: a regular user first, then staff, superuser and
      ADMIN written by a second save, which sends nothing. */
  method CreateSuperuser(st: Store, email: Option<string>, password: Option<string>, name: string, role: Role,
                         id: Uuid, normalize: string -> string, d: Delivery, now: Instant)
    returns (r: Result<User, Failure>)
    requires st.Valid() && id !in st.users
    modifies st
    ensures st.Valid()
    ensures (email.None? || email == Some("")) ==> r == Err(ValueError)
    ensures email.Some? && email.value != "" && EmailInUse(old(st.users), normalize(email.value)) ==>
      r == Err(IntegrityError)
    ensures r.Ok? <==> email.Some? && email.value != "" && !EmailInUse(old(st.users), normalize(email.value))
    ensures r.Err? ==> st.Snapshot() == old(st.Snapshot())
    ensures r.Ok? ==>
      var created := NewUser(id, normalize(email.value), name, role, SetPassword(password));
      && r.value == created.(isStaff := true, isSuperuser := true, role := Admin)
      && st.Snapshot() == old(st.Snapshot()).(users := old(st.users)[id := r.value],
           notifications := old(st.notifications) + Logged(AccountAttempts(created, None), d, now))
  {
    ghost var before := st.Snapshot();
    r := CreateUser(st, email, password, name, role, id, normalize, d, now);
    if r.Err? {
      return;
    }
    ghost var first := r.value;
    ghost var mid := st.Snapshot();
    var u := r.value.(isStaff := true, isSuperuser := true, role := Admin);
    ResaveFindsNoOtherHolder(before.users, first, u);
    var saved := SaveUser(st, u, d, now);
    SecondSaveOverwrites(before, mid, st.Snapshot(), first, u, Logged(AccountAttempts(first, None), d, now), d, now);
    r := Ok(u);
  }

  /** Saving a freshly stored user again, under the same id and e-mail,
      meets no other holder of that e-mail. */
  lemma ResaveFindsNoOtherHolder(users: map<Uuid, User>, first: User, second: User)
    requires !EmailInUse(users, first.email)
    requires second.id == first.id && second.email == first.email
    ensures !EmailHeldByOther(users[first.id := first], second)
  {
  }

  /** A second save of the same user id replaces the first one and, sending
      nothing, leaves the log as the first save made it. */
  lemma SecondSaveOverwrites(before: Db, mid: Db, after: Db, first: User, second: User,
                             tail: seq<Notification>, d: Delivery, now: Instant)
    requires mid == before.(users := before.users[second.id := first], notifications := before.notifications + tail)
    requires after == mid.(users := mid.users[second.id := second],
      notifications := mid.notifications + Logged(UserSignal(mid, second), d, now))
    ensures after == before.(users := before.users[second.id := second], notifications := before.notifications + tail)
  {
    assert UserSignal(mid, second) == [];
    assert mid.notifications + Logged([], d, now) == before.notifications + tail;
    assert before.users[second.id := first][second.id := second] == before.users[second.id := second];
  }
}
