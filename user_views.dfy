/** The user endpoints: the permission table and queryset of the user
    viewset, its profile update, and the change-password endpoint. */
module UserViews {
  import opened Common
  import opened Models
  import opened Email
  import opened Signals
  import opened Permissions
  import opened UserSerializers

  /** `get_permissions`. */
  function PermissionFor(action: Action): Permission {
    match action
    case Create => AdminOnly
    case List => AdminOnly
    case _ => OwnerOrAdmin
  }

  /** `get_queryset`: an admin sees every user, anyone else only their own row. */
  function Visible(db: Db, actor: User): set<Uuid> {
    if actor.role == Admin then db.users.Keys else set k | k in db.users && k == actor.id
  }

  /** `get_object` followed by IsOwnerOrAdminUser on the user row. */
  function GetObject(db: Db, actor: User, id: Uuid): (r: Result<User, Reply>)
    ensures r.Ok? ==> id in db.users && r.value == db.users[id] && id in Visible(db, actor)
    ensures r.Err? ==> r.error == NotFound404 || r.error == Forbidden403(PermissionDenied)
  {
    if id !in Visible(db, actor) then Err(NotFound404)
    else if !IsOwnerOrAdminUserObject(actor, UserRow(id)) then Err(Forbidden403(PermissionDenied))
    else Ok(db.users[id])
  }

  /** The name check of the profile serializer; a partial update may omit it. */
  function NameError(name: Option<string>, partial: bool): Option<Reason> {
    if name.None? && partial then None else RequiredTextError(name, 0, Some(NameMaxLength))
  }

  /** The change-password request. */
  datatype ChangePasswordInput = ChangePasswordInput(oldPassword: Option<string>, newPassword: Option<string>)

  datatype PasswordField = OldPassword | NewPassword

  function ChangePasswordErrors(input: ChangePasswordInput): (errs: map<PasswordField, Reason>)
    ensures input.oldPassword.None? ==> OldPassword in errs && errs[OldPassword] == FieldRequired
    ensures input.newPassword.None? ==> NewPassword in errs && errs[NewPassword] == FieldRequired
  {
    var previous := RequiredTextError(input.oldPassword, 0, None);
    var next := RequiredTextError(input.newPassword, PasswordMinLength, None);
    (if previous.Some? then map[OldPassword := previous.value] else map[])
    + (if next.Some? then map[NewPassword := next.value] else map[])
  }

  /** An update of a stored user sends no message, so what the mail channel
      would do is irrelevant. */
  const Silent: Delivery := Delivery(false, false)

  // ---- properties ----

  lemma PermissionTable(action: Action)
    ensures PermissionFor(action) == AdminOnly <==> action == Create || action == List
    ensures PermissionFor(action) == OwnerOrAdmin <==> action != Create && action != List
  {
  }

  /** The queryset and IsOwnerOrAdminUser agree on every stored user, so a
      fetch answers 404 or succeeds, never 403. */
  lemma VisibleIffOwnerOrAdmin(db: Db, actor: User, id: Uuid)
    requires id in db.users
    ensures id in Visible(db, actor) <==> IsOwnerOrAdminUserObject(actor, UserRow(id))
    ensures GetObject(db, actor, id).Ok? <==> (actor.role == Admin || id == actor.id)
    ensures GetObject(db, actor, id).Err? ==> GetObject(db, actor, id) == Err(NotFound404)
  {
  }

  /** A change-password request passes its field checks iff the old password
      is given and non-empty and the new one has at least five characters. */
  lemma ChangePasswordErrorsIff(input: ChangePasswordInput)
    ensures ChangePasswordErrors(input) == map[] <==>
      input.oldPassword.Some? && input.oldPassword.value != ""
      && input.newPassword.Some? && |input.newPassword.value| >= PasswordMinLength
  {
    var errs := ChangePasswordErrors(input);
    if errs == map[] {
      assert OldPassword !in errs && NewPassword !in errs;
    }
  }

  // ---- the writes ----

  /** PUT and PATCH on a user: only the name can change. */
  method UpdateView(st: Store, actor: Actor, action: Action, id: Uuid, name: Option<string>) returns (reply: Reply)
    requires st.Valid() && (action == Update || action == PartialUpdate)
    modifies st
    ensures st.Valid()
    ensures !actor.Authenticated? ==> reply == NotAuthenticated
    ensures reply == Ok200 <==>
      actor.Authenticated? && GetObject(old(st.Snapshot()), actor.user, id).Ok?
      && NameError(name, action == PartialUpdate).None?
    ensures reply != Ok200 ==> st.Snapshot() == old(st.Snapshot())
    ensures reply == Ok200 ==>
      st.Snapshot() == old(st.Snapshot()).(users := old(st.users)[id := ProfileUpdate(old(st.users)[id], name)])
  {
    if !actor.Authenticated? {
      return NotAuthenticated;
    }
    var fetched := GetObject(st.Snapshot(), actor.user, id);
    if fetched.Err? {
      return fetched.error;
    }
    if NameError(name, action == PartialUpdate).Some? {
      return BadRequest400(InvalidInput);
    }
    var u := ProfileUpdate(fetched.value, name);
    ghost var before := st.Snapshot();
    var saved := SaveUser(st, u, Silent, 0);
    assert saved;
    assert UserSignal(before, u) == [];
    assert Logged([], Silent, 0) == [];
    reply := Ok200;
  }

  /** POST to change one's own password: field checks, then the old
      password must match; only then is the new one set and saved. */
  method ChangePassword(st: Store, actor: Actor, input: ChangePasswordInput) returns (reply: Reply)
    requires st.Valid()
    requires actor.Authenticated? ==> actor.user.id in st.users && st.users[actor.user.id] == actor.user
    modifies st
    ensures st.Valid()
    ensures !actor.Authenticated? ==> reply == NotAuthenticated
    ensures actor.Authenticated? && ChangePasswordErrors(input) != map[] ==> reply == BadRequest400(InvalidInput)
    ensures (actor.Authenticated? && ChangePasswordErrors(input) == map[]
             && !CheckPassword(actor.user.password, input.oldPassword.value)) ==>
      reply == BadRequest400(InvalidOldPassword)
    ensures reply == Ok200 <==>
      actor.Authenticated? && ChangePasswordErrors(input) == map[]
      && CheckPassword(actor.user.password, input.oldPassword.value)
    ensures reply != Ok200 ==> st.Snapshot() == old(st.Snapshot())
    ensures reply == Ok200 ==>
      var id := actor.user.id;
      && st.Snapshot() == old(st.Snapshot()).(users := old(st.users)[id :=
           actor.user.(password := SetPassword(Some(input.newPassword.value)))])
      && CheckPassword(st.users[id].password, input.newPassword.value)
      && (input.oldPassword != input.newPassword ==> !CheckPassword(st.users[id].password, input.oldPassword.value))
  {
    if !actor.Authenticated? {
      return NotAuthenticated;
    }
    if ChangePasswordErrors(input) != map[] {
      return BadRequest400(InvalidInput);
    }
    if !CheckPassword(actor.user.password, input.oldPassword.value) {
      return BadRequest400(InvalidOldPassword);
    }
    var u := actor.user.(password := SetPassword(Some(input.newPassword.value)));
    ghost var before := st.Snapshot();
    var saved := SaveUser(st, u, Silent, 0);
    assert saved;
    assert UserSignal(before, u) == [];
    assert Logged([], Silent, 0) == [];
    CheckPasswordAfterSet(Some(input.newPassword.value), input.newPassword.value);
    CheckPasswordAfterSet(Some(input.newPassword.value), input.oldPassword.value);
    reply := Ok200;
  }
}
