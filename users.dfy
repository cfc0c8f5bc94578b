/**
 * User administration (frontend/src/pages/UserManagement.jsx): pending role
 * changes per user and their saving, the role options each form offers, and
 * the checks of the create and edit dialogs, including the edit dialog's
 * payload of changed fields.
 */
module Users {
  import opened Common

  const MinPasswordLength: nat := 6

  datatype Role = Role(id: int, name: string, description: string)

  /** A row of the users table; `email` and `roleId` may be null. */
  datatype UserRow = UserRow(id: int, name: string, email: Option<string>, isActive: bool,
                             roleId: Option<int>, roleName: Option<string>)

  // ---------------------------------------------------------------------
  // Role options
  // ---------------------------------------------------------------------

  /** The options of the per-user role select: every role but "Super Admin". */
  function AssignOptions(roles: seq<Role>): (r: seq<Role>)
    ensures forall x :: x in r <==> x in roles && x.name != "Super Admin"
  {
    if roles == [] then []
    else
      var init := AssignOptions(roles[..|roles| - 1]);
      var last := roles[|roles| - 1];
      assert forall x :: x in roles <==> x in roles[..|roles| - 1] || x == last;
      if last.name != "Super Admin" then init + [last] else init
  }

  /** The options of the create dialog: neither "Super Admin" nor "Employee". */
  function CreateOptions(roles: seq<Role>): (r: seq<Role>)
    ensures forall x :: x in r <==> x in roles && x.name != "Super Admin" && x.name != "Employee"
  {
    if roles == [] then []
    else
      var init := CreateOptions(roles[..|roles| - 1]);
      var last := roles[|roles| - 1];
      assert forall x :: x in roles <==> x in roles[..|roles| - 1] || x == last;
      if last.name != "Super Admin" && last.name != "Employee" then init + [last] else init
  }

  /** Every role offered on creation is also offered for assignment. */
  lemma CreateOptionsAreAssignable(roles: seq<Role>, x: Role)
    requires x in CreateOptions(roles)
    ensures x in AssignOptions(roles) && x.name != "Employee"
  {
  }

  // ---------------------------------------------------------------------
  // Pending role changes
  // ---------------------------------------------------------------------

  /** `roles.find((r) => r.id === id)`. */
  function FindRole(roles: seq<Role>, id: int): (r: Option<Role>)
    ensures r.Some? ==> r.value in roles && r.value.id == id
    ensures r.None? ==> forall x :: x in roles ==> x.id != id
  {
    if roles == [] then None
    else if roles[0].id == id then Some(roles[0])
    else FindRole(roles[1..], id)
  }

  function RoleNameOf(roles: seq<Role>, id: int): Option<string>
  {
    match FindRole(roles, id)
    case None => None
    case Some(x) => Some(x.name)
  }

  /** The row of `userId` given the new role and its name; the other rows as they were. */
  function WithRole(users: seq<UserRow>, userId: int, roleId: int, roles: seq<Role>): (r: seq<UserRow>)
    ensures |r| == |users|
    ensures forall i :: 0 <= i < |users| ==>
      r[i] == if users[i].id == userId then users[i].(roleId := Some(roleId), roleName := RoleNameOf(roles, roleId)) else users[i]
  {
    seq(|users|, i requires 0 <= i < |users| =>
      if users[i].id == userId then users[i].(roleId := Some(roleId), roleName := RoleNameOf(roles, roleId)) else users[i])
  }

  /** A role choice JavaScript treats as true: present, not NaN, not 0. */
  predicate RoleChosen(roleId: Option<int>)
  {
    roleId.Some? && roleId.value != 0
  }

  class UserRoleEditor {
    var users: seq<UserRow>
    var roles: seq<Role>
    /** `roleChanges`: the role picked for a user, None where `parseInt` gave NaN. */
    var roleChanges: map<int, Option<int>>

    /** `loadData`: fresh rows and roles, no pending change. */
    constructor(users0: seq<UserRow>, roles0: seq<Role>)
      ensures users == users0 && roles == roles0 && roleChanges == map[]
    {
      users := users0;
      roles := roles0;
      roleChanges := map[];
    }

    /** `hasChanges`. */
    predicate HasChanges(userId: int)
      reads this
    {
      userId in roleChanges
    }

    /** `handleRoleChange`. */
    method PickRole(userId: int, roleId: Option<int>)
      modifies this
      ensures roleChanges == old(roleChanges)[userId := roleId]
      ensures HasChanges(userId)
      ensures users == old(users) && roles == old(roles)
    {
      roleChanges := roleChanges[userId := roleId];
    }

    /**
     * `handleSaveRole`. `accepted` is whether the server took the
     * assignment. A missing, NaN or zero choice is refused before any request.
     */
    method SaveRole(userId: int, accepted: bool) returns (r: Result<int>)
      modifies this
      ensures roles == old(roles)
      ensures r.Err? <==> !(userId in old(roleChanges) && RoleChosen(old(roleChanges)[userId])) || !accepted
      ensures r.Err? ==> users == old(users) && roleChanges == old(roleChanges)
      ensures r.Ok? ==> r.value == old(roleChanges)[userId].value
      ensures r.Ok? ==> users == WithRole(old(users), userId, r.value, roles)
      ensures r.Ok? ==> roleChanges == old(roleChanges) - {userId} && !HasChanges(userId)
    {
      if userId !in roleChanges || !RoleChosen(roleChanges[userId]) {
        return Err(0, "Please select a role");
      }
      var newRoleId := roleChanges[userId].value;
      if !accepted {
        return Err(0, "Failed to assign role");
      }
      users := WithRole(users, userId, newRoleId, roles);
      roleChanges := roleChanges - {userId};
      r := Ok(newRoleId);
    }
  }

  /** Saving one user's role keeps every other user's pending change. */
  lemma SaveKeepsOtherChanges(changes: map<int, Option<int>>, userId: int, other: int)
    requires other != userId
    ensures other in changes - {userId} <==> other in changes
    ensures other in changes ==> (changes - {userId})[other] == changes[other]
  {
  }

  // ---------------------------------------------------------------------
  // Create dialog
  // ---------------------------------------------------------------------

  datatype CreateForm = CreateForm(name: string, email: string, password: string, roleId: Option<int>)

  predicate Filled(form: CreateForm)
  {
    form.name != "" && form.email != "" && form.password != "" && RoleChosen(form.roleId)
  }

  /** `CreateUserModal.handleSubmit`: every field filled, then a password of at least six characters. */
  function CreateCheck(form: CreateForm): (r: Result<CreateForm>)
    ensures r.Ok? <==> Filled(form) && Utf16Length(form.password) >= MinPasswordLength
    ensures r.Ok? ==> r.value == form
  {
    if form.name == "" || form.email == "" || form.password == "" || !RoleChosen(form.roleId) then
      Err(0, "Please fill in all fields")
    else if Utf16Length(form.password) < MinPasswordLength then Err(0, "Password must be at least 6 characters")
    else Ok(form)
  }

  // ---------------------------------------------------------------------
  // Edit dialog
  // ---------------------------------------------------------------------

  datatype EditForm = EditForm(name: string, email: string, password: string, isActive: bool)

  /** The dialog's fields when it opens: a null email shows as "". */
  function InitialEditForm(user: UserRow): EditForm
  {
    EditForm(user.name, if user.email.Some? then user.email.value else "", "", user.isActive)
  }

  /** The fields the edit sends; an absent key is None. */
  datatype Updates = Updates(name: Option<string>, email: Option<string>, password: Option<string>, isActive: Option<bool>)

  predicate NoUpdates(u: Updates)
  {
    u.name.None? && u.email.None? && u.password.None? && u.isActive.None?
  }

  /** `formData.email !== user.email`: a string is never strictly equal to null. */
  predicate EmailDiffers(form: EditForm, user: UserRow)
  {
    user.email.None? || user.email.value != form.email
  }

  /** Exactly the changed fields, each with its new value, and the password when one was typed. */
  predicate ChangedFields(u: Updates, user: UserRow, form: EditForm)
  {
    (u.name.Some? <==> form.name != user.name)
    && (u.email.Some? <==> EmailDiffers(form, user))
    && (u.password.Some? <==> form.password != "")
    && (u.isActive.Some? <==> form.isActive != user.isActive)
    && (u.name.Some? ==> u.name.value == form.name)
    && (u.email.Some? ==> u.email.value == form.email)
    && (u.password.Some? ==> u.password.value == form.password)
    && (u.isActive.Some? ==> u.isActive.value == form.isActive)
  }

  /** Nothing to send: every field as it was and no password typed. */
  predicate Untouched(user: UserRow, form: EditForm)
  {
    form.name == user.name && !EmailDiffers(form, user) && form.password == "" && form.isActive == user.isActive
  }

  /** The payload of `EditUserModal.handleSubmit`, built field by field. */
  method BuildUpdates(user: UserRow, form: EditForm) returns (u: Updates)
    ensures ChangedFields(u, user, form)
    ensures NoUpdates(u) <==> Untouched(user, form)
  {
    u := Updates(None, None, None, None);
    if form.name != user.name {
      u := u.(name := Some(form.name));
    }
    if EmailDiffers(form, user) {
      u := u.(email := Some(form.email));
    }
    if form.password != "" {
      u := u.(password := Some(form.password));
    }
    if form.isActive != user.isActive {
      u := u.(isActive := Some(form.isActive));
    }
  }

  /** `EditUserModal.handleSubmit`: no changes is refused, then a new password shorter than six. */
  method EditSubmit(user: UserRow, form: EditForm) returns (r: Result<Updates>)
    ensures r.Ok? <==> !Untouched(user, form) && (form.password == "" || Utf16Length(form.password) >= MinPasswordLength)
    ensures Untouched(user, form) ==> r == Err(0, "No changes to save")
    ensures r.Ok? ==> !NoUpdates(r.value) && ChangedFields(r.value, user, form)
  {
    var u := BuildUpdates(user, form);
    if NoUpdates(u) {
      return Err(0, "No changes to save");
    }
    if u.password.Some? && Utf16Length(u.password.value) < MinPasswordLength {
      return Err(0, "Password must be at least 6 characters");
    }
    return Ok(u);
  }

  /**
   * For a user without an email, opening the edit dialog and saving at once
   * sends `{email: ""}` instead of reporting that nothing changed.
   */
  method UnchangedEditWithoutEmailIsSent(user: UserRow) returns (r: Result<Updates>)
    requires user.email.None?
    ensures r == Ok(Updates(None, Some(""), None, None))
  {
    r := EditSubmit(user, InitialEditForm(user));
  }

  /** The edit payload compared against the email as the dialog shows it. */
  function UpdatesAgainstShown(user: UserRow, form: EditForm): (u: Updates)
    ensures u.email.Some? <==> form.email != InitialEditForm(user).email
    ensures u.name.Some? <==> form.name != user.name
    ensures u.password.Some? <==> form.password != ""
    ensures u.isActive.Some? <==> form.isActive != user.isActive
  {
    var shown := InitialEditForm(user);
    Updates(if form.name != user.name then Some(form.name) else None,
            if form.email != shown.email then Some(form.email) else None,
            if form.password != "" then Some(form.password) else None,
            if form.isActive != user.isActive then Some(form.isActive) else None)
  }

  /** Compared against the shown email, saving an untouched dialog always reports no changes. */
  lemma UntouchedEditHasNoUpdates(user: UserRow)
    ensures NoUpdates(UpdatesAgainstShown(user, InitialEditForm(user)))
  {
  }
}
