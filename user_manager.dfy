/**
 * frontend/src/components/admin/UserManager.jsx: the admin's user table.
 * The component state (`users`, `formData`, `editingUser`, `error`) is the
 * class `UserManager`; its handlers are methods. The answers of the API calls
 * and of `window.confirm` are parameters; each handler returns the request it
 * sends, so "no API call" is a stated result.
 */
module UserManager {
  import opened Wrappers
  import opened Ids
  import opened Text
  import opened Collections
  import opened EmailPattern

  /** A possibly missing address field, as the API returns it. */
  datatype StoredAddress = StoredAddress(street: Option<string>, city: Option<string>,
                                         department: Option<string>, zipCode: Option<string>)

  datatype AdminUser = AdminUser(id: Id, name: string, email: string, phone: Option<string>, role: string,
                                 isActive: Option<bool>, address: Option<StoredAddress>)

  datatype FormAddress = FormAddress(street: string, city: string, department: string, zipCode: string)

  datatype UserForm = UserForm(name: string, email: string, phone: string, role: string,
                               isActive: bool, address: FormAddress)

  /** The message of the engine's `TypeError` for reading `_id` of `null`. */
  const NullEditingMessage := "Cannot read properties of null (reading '_id')"

  const EmptyForm := UserForm("", "", "", "user", true, FormAddress("", "", "", ""))

  /** The table filters; `""` means no filter. */
  datatype Filters = Filters(role: string, search: string)

  // ---------------------------------------------------------------------
  // The filtered table

  predicate MatchesSearch(search: string, u: AdminUser) {
    search == "" || Contains(Lower(u.name), Lower(search)) || Contains(Lower(u.email), Lower(search))
  }

  predicate MatchesUser(f: Filters, u: AdminUser) {
    (f.role == "" || u.role == f.role) && MatchesSearch(f.search, u)
  }

  /**
   * `filteredUsers`: the users of the exact role (when one is chosen) whose
   * name or email contains the search text, ignoring case, in table order.
   */
  function FilteredUsers(users: seq<AdminUser>, f: Filters): (r: seq<AdminUser>)
    ensures IsSubsequence(r, users)
    ensures forall k :: 0 <= k < |r| ==> r[k] in users && (f.role == "" || r[k].role == f.role)
    ensures forall k :: 0 <= k < |users| ==>
      (users[k] in r <==> (f.role == "" || users[k].role == f.role) && MatchesSearch(f.search, users[k]))
  {
    Collections.Filter(users, u => MatchesUser(f, u))
  }

  /** With neither filter set the table shows every user, in order. */
  lemma NoFiltersShowAll(users: seq<AdminUser>)
    ensures FilteredUsers(users, Filters("", "")) == users
  {
    FilterAll(users, u => MatchesUser(Filters("", ""), u));
  }

  /** The search ignores case: a name containing the text in capitals matches. */
  lemma SearchIgnoresCase(users: seq<AdminUser>, u: AdminUser)
    requires u in users && u.role == "user"
    requires u.name == "ANA"
    ensures u in FilteredUsers(users, Filters("user", "ana"))
  {
    assert Lower(u.name) == "ana";
    assert Lower("ana") == "ana";
    assert Contains(Lower(u.name), Lower("ana")) by { assert Lower("ana") <= Lower(u.name); }
    var k :| 0 <= k < |users| && users[k] == u;
  }

  // ---------------------------------------------------------------------
  // The edit form

  datatype FormError = NameRequired | EmailRequired | EmailInvalid

  /** `validateForm`: the first failing check, in the order of the source. */
  function ValidateForm(form: UserForm): (e: Option<FormError>)
    ensures e.None? <==> Trim(form.name) != "" && EmailFormat(form.email)
    ensures Trim(form.name) == "" ==> e == Some(NameRequired)
    ensures Trim(form.name) != "" && !EmailFormat(form.email) ==> e.Some? && e.value != NameRequired
  {
    if Trim(form.name) == "" then Some(NameRequired)
    else if Trim(form.email) == "" then
      BlankRejected(form.email);
      Some(EmailRequired)
    else if !EmailFormat(form.email) then Some(EmailInvalid)
    else None
  }

  /** The body of the update request: name, email and phone trimmed; the address as typed. */
  datatype UserData = UserData(name: string, email: string, phone: string, isActive: bool, address: FormAddress)

  function SubmitData(form: UserForm): (d: UserData)
    ensures d.name == Trim(form.name) && d.email == Trim(form.email) && d.phone == Trim(form.phone)
    ensures d.isActive == form.isActive && d.address == form.address
  {
    UserData(Trim(form.name), Trim(form.email), Trim(form.phone), form.isActive, form.address)
  }

  /** `handleEdit`: missing phone and address fields become `''`; only an explicit `false` deactivates. */
  function EditForm(u: AdminUser): (form: UserForm)
    ensures form.name == u.name && form.email == u.email && form.role == u.role
    ensures form.isActive <==> u.isActive != Some(false)
  {
    var a := if u.address.Some? then u.address.value else StoredAddress(None, None, None, None);
    UserForm(u.name, u.email, OrDefault(u.phone, ""), u.role, u.isActive != Some(false),
             FormAddress(OrDefault(a.street, ""), OrDefault(a.city, ""), OrDefault(a.department, ""), OrDefault(a.zipCode, "")))
  }

  /**
   * Editing a stored user and submitting unchanged sends back their name,
   * email and phone when these have no surrounding whitespace, and the
   * form accepts it exactly when the stored name is non-blank and the
   * stored email matches the pattern.
   */
  lemma EditSubmitRoundTrip(u: AdminUser)
    requires Trim(u.name) == u.name && Trim(u.email) == u.email && Trim(OrDefault(u.phone, "")) == OrDefault(u.phone, "")
    ensures SubmitData(EditForm(u)).name == u.name
    ensures SubmitData(EditForm(u)).email == u.email
    ensures SubmitData(EditForm(u)).phone == OrDefault(u.phone, "")
    ensures ValidateForm(EditForm(u)).None? <==> u.name != "" && EmailFormat(u.email)
  {
    EditSubmitData(u);
    EditValidate(u);
  }

  lemma EditSubmitData(u: AdminUser)
    requires Trim(u.name) == u.name && Trim(u.email) == u.email && Trim(OrDefault(u.phone, "")) == OrDefault(u.phone, "")
    ensures SubmitData(EditForm(u)).name == u.name
    ensures SubmitData(EditForm(u)).email == u.email
    ensures SubmitData(EditForm(u)).phone == OrDefault(u.phone, "")
  {
    var f := EditForm(u);
    assert f.name == u.name && f.email == u.email && f.phone == OrDefault(u.phone, "");
  }

  lemma EditValidate(u: AdminUser)
    requires Trim(u.name) == u.name
    ensures ValidateForm(EditForm(u)).None? <==> u.name != "" && EmailFormat(u.email)
  {
    var f := EditForm(u);
    assert f.name == u.name && f.email == u.email;
  }

  /** A reset form cannot be submitted: its name is empty. */
  lemma EmptyFormRejected()
    ensures ValidateForm(EmptyForm) == Some(NameRequired)
  {
  }

  // ---------------------------------------------------------------------
  // The list updates

  /** `prev.map(u => u._id === id ? updated : u)`: every row with that id replaced, the others kept. */
  function ReplaceById(users: seq<AdminUser>, id: Id, updated: AdminUser): (r: seq<AdminUser>)
    ensures |r| == |users|
    ensures forall k :: 0 <= k < |users| ==> r[k] == if users[k].id == id then updated else users[k]
  {
    ReplaceWhere(users, (x: AdminUser) => x.id == id, updated)
  }

  /** `prev.filter(u => u._id !== id)`: no row with that id left, every other row kept in order. */
  function RemoveById(users: seq<AdminUser>, id: Id): (r: seq<AdminUser>)
    ensures forall k :: 0 <= k < |r| ==> r[k].id != id
    ensures forall k :: 0 <= k < |users| && users[k].id != id ==> users[k] in r
    ensures IsSubsequence(r, users)
  {
    Collections.Filter(users, (x: AdminUser) => x.id != id)
  }

  // ---------------------------------------------------------------------
  // The component state and its handlers

  /** A request the component sends. */
  datatype Request = NoRequest | UpdateUser(id: Id, data: UserData) | UpdateRole(id: Id, role: string)
                   | DeleteUser(id: Id)

  class UserManager {
    /** The `id` of the signed-in admin, compared against each row's `_id`. */
    const me: Id
    var users: seq<AdminUser>
    var form: UserForm
    var editing: Option<AdminUser>
    /** Whether the edit form is shown (`showEditForm`). */
    var showEditForm: bool
    var error: Option<string>

    constructor (me: Id, users: seq<AdminUser>)
      ensures this.me == me && this.users == users && form == EmptyForm && editing == None
      ensures !showEditForm && error == None
    {
      this.me := me;
      this.users := users;
      form := EmptyForm;
      editing := None;
      showEditForm := false;
      error := None;
    }

    /** `resetForm` */
    method ResetForm()
      modifies this
      ensures form == EmptyForm && editing == None && !showEditForm && error == None && users == old(users)
    {
      form := EmptyForm;
      editing := None;
      showEditForm := false;
      error := None;
    }

    /** `handleEdit` */
    method HandleEdit(u: AdminUser)
      modifies this
      ensures editing == Some(u) && form == EditForm(u) && showEditForm && error == None && users == old(users)
    {
      editing := Some(u);
      form := EditForm(u);
      showEditForm := true;
      error := None;
    }

    /**
     * `handleSubmit`. An invalid form sends nothing and changes nothing.
     * Without a user being edited the source dereferences `null` inside its
     * `try`, so the request is not sent and the catch sets the error. The
     * server's answer is `answer`: the updated user replaces every row with
     * the edited id and the form resets; a failure keeps the rows and sets the error.
     */
    method HandleSubmit(answer: Result<AdminUser, string>) returns (sent: Request)
      modifies this
      ensures ValidateForm(old(form)).Some? ==>
        && sent == NoRequest && users == old(users) && form == old(form) && editing == old(editing)
        && showEditForm == old(showEditForm) && error == old(error)
      ensures ValidateForm(old(form)).None? && old(editing).None? ==>
        && sent == NoRequest && users == old(users) && form == old(form) && editing == old(editing)
        && showEditForm == old(showEditForm) && error == Some(NullEditingMessage)
      ensures ValidateForm(old(form)).None? && old(editing).Some? ==>
        sent == UpdateUser(old(editing).value.id, SubmitData(old(form)))
      ensures ValidateForm(old(form)).None? && old(editing).Some? && answer.Ok? ==>
        && users == ReplaceById(old(users), old(editing).value.id, answer.value)
        && form == EmptyForm && editing == None && !showEditForm && error == None
      ensures ValidateForm(old(form)).None? && old(editing).Some? && answer.Err? ==>
        && users == old(users) && form == old(form) && editing == old(editing)
        && showEditForm == old(showEditForm) && error == Some(answer.error)
    {
      var verdict := ValidateForm(form);
      if verdict.Some? {
        return NoRequest;
      }
      sent := SendUpdate(answer);
    }

    /** The part of `handleSubmit` after the form passed validation. */
    method SendUpdate(answer: Result<AdminUser, string>) returns (sent: Request)
      modifies this
      ensures editing == old(editing) || editing == None
      ensures old(editing).None? ==>
        && sent == NoRequest && users == old(users) && form == old(form) && editing == old(editing)
        && showEditForm == old(showEditForm) && error == Some(NullEditingMessage)
      ensures old(editing).Some? ==> sent == UpdateUser(old(editing).value.id, SubmitData(old(form)))
      ensures old(editing).Some? && answer.Ok? ==>
        && users == ReplaceById(old(users), old(editing).value.id, answer.value)
        && form == EmptyForm && editing == None && !showEditForm && error == None
      ensures old(editing).Some? && answer.Err? ==>
        && users == old(users) && form == old(form) && editing == old(editing)
        && showEditForm == old(showEditForm) && error == Some(answer.error)
    {
      error := None;
      if editing.None? {
        error := Some(NullEditingMessage);
        return NoRequest;
      }
      var id := editing.value.id;
      sent := UpdateUser(id, SubmitData(form));
      match answer
      case Ok(updated) =>
        users := ReplaceById(users, id, updated);
        ResetForm();
      case Err(message) =>
        error := Some(message);
    }

    /**
     * `handleRoleChange`: taking the admin role away from oneself is refused
     * without a request; otherwise the change needs the confirmation, and the
     * server's updated user replaces the rows with that id.
     */
    method HandleRoleChange(userId: Id, newRole: string, confirmed: bool, answer: Result<AdminUser, string>)
      returns (sent: Request)
      modifies this
      ensures form == old(form) && editing == old(editing) && showEditForm == old(showEditForm)
      ensures (userId == me && newRole != "admin") || !confirmed ==>
        sent == NoRequest && users == old(users) && error == old(error)
      ensures !(userId == me && newRole != "admin") && confirmed ==> sent == UpdateRole(userId, newRole)
      ensures !(userId == me && newRole != "admin") && confirmed && answer.Ok? ==>
        users == ReplaceById(old(users), userId, answer.value) && error == None
      ensures !(userId == me && newRole != "admin") && confirmed && answer.Err? ==>
        users == old(users) && error == Some(answer.error)
    {
      if userId == me && newRole != "admin" {
        return NoRequest;
      }
      if !confirmed {
        return NoRequest;
      }
      error := None;
      sent := UpdateRole(userId, newRole);
      match answer
      case Ok(updated) =>
        users := ReplaceById(users, userId, updated);
      case Err(message) =>
        error := Some(message);
    }

    /**
     * `handleDelete`: one's own account is refused without a request;
     * otherwise, once confirmed and accepted by the server, the rows with
     * that id are removed and the rest keep their order.
     */
    method HandleDelete(userId: Id, confirmed: bool, answer: Result<(), string>) returns (sent: Request)
      modifies this
      ensures form == old(form) && editing == old(editing) && showEditForm == old(showEditForm)
      ensures userId == me || !confirmed ==> sent == NoRequest && users == old(users) && error == old(error)
      ensures userId != me && confirmed ==> sent == DeleteUser(userId)
      ensures userId != me && confirmed && answer.Ok? ==>
        users == RemoveById(old(users), userId) && error == None
      ensures userId != me && confirmed && answer.Err? ==> users == old(users) && error == Some(answer.error)
    {
      if userId == me {
        return NoRequest;
      }
      if !confirmed {
        return NoRequest;
      }
      error := None;
      sent := DeleteUser(userId);
      match answer
      case Ok(_) =>
        users := RemoveById(users, userId);
      case Err(message) =>
        error := Some(message);
    }
  }
}
