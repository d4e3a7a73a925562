/**
 * frontend/src/components/admin/CategoryManager.jsx: the admin's category
 * list and form. The component state (`categories`, `formData`,
 * `editingCategory`, `showForm`, `error`) is the class `CategoryManager`;
 * the answers of the API calls and of `window.confirm` are parameters, and
 * each handler returns the request it sends.
 */
module CategoryManager {
  import opened Wrappers
  import opened Ids
  import opened Text
  import opened Collections
  import Validators

  /** A category as the API returns it; `description` and `icon` may be missing. */
  datatype CategoryRecord = CategoryRecord(id: Id, name: string, description: Option<string>, icon: Option<string>)

  datatype CategoryForm = CategoryForm(name: string, description: string, icon: string)

  const DefaultIcon := "fas fa-tag"
  const EmptyForm := CategoryForm("", "", DefaultIcon)

  datatype FormError = NameRequired | NameTooShort | NameTooLong

  /** `validateForm`: the first failing check on the trimmed name. */
  function ValidateForm(form: CategoryForm): (e: Option<FormError>)
    ensures e.None? <==> 2 <= |Trim(form.name)| <= 50
    ensures Trim(form.name) == "" ==> e == Some(NameRequired)
    ensures 0 < |Trim(form.name)| < 2 ==> e == Some(NameTooShort)
    ensures |Trim(form.name)| > 50 ==> e == Some(NameTooLong)
  {
    var name := Trim(form.name);
    if name == "" then Some(NameRequired)
    else if |name| < 2 then Some(NameTooShort)
    else if |name| > 50 then Some(NameTooLong)
    else None
  }

  /** The request body: name and description trimmed, the icon as chosen. */
  datatype CategoryData = CategoryData(name: string, description: string, icon: string)

  function SubmitData(form: CategoryForm): (d: CategoryData)
    ensures d.name == Trim(form.name) && d.description == Trim(form.description) && d.icon == form.icon
  {
    CategoryData(Trim(form.name), Trim(form.description), form.icon)
  }

  /** `handleEdit`: a missing or empty description becomes `''`, a missing or empty icon the tag icon. */
  function EditForm(c: CategoryRecord): (form: CategoryForm)
    ensures form.name == c.name
    ensures form.description == OrDefault(c.description, "")
    ensures form.icon == OrDefault(c.icon, DefaultIcon) && form.icon != ""
  {
    CategoryForm(c.name, OrDefault(c.description, ""), OrDefault(c.icon, DefaultIcon))
  }

  /**
   * A form the component accepts passes the server's `validateCategory`
   * exactly when the trimmed description has at most 200 characters, a
   * limit the form itself does not check.
   */
  lemma AcceptedFormOnServer(form: CategoryForm)
    requires ValidateForm(form).None?
    ensures Validators.CategoryErrors(SubmitData(form).name, Some(SubmitData(form).description)) == []
            <==> |Trim(form.description)| <= 200
  {
    TrimIdempotent(form.name);
    TrimIdempotent(form.description);
  }

  /** Editing a stored category and submitting unchanged sends its fields back when they are trimmed. */
  lemma EditSubmitRoundTrip(c: CategoryRecord)
    requires Trim(c.name) == c.name && (c.description.Some? ==> Trim(c.description.value) == c.description.value)
    ensures SubmitData(EditForm(c)) == CategoryData(c.name, OrDefault(c.description, ""), OrDefault(c.icon, DefaultIcon))
    ensures ValidateForm(EditForm(c)).None? <==> 2 <= |c.name| <= 50
  {
    var f := EditForm(c);
    if c.description.None? || c.description.value == "" {
      assert f.description == "";
    }
  }

  /** A reset form cannot be submitted: its name is empty. */
  lemma EmptyFormRejected()
    ensures ValidateForm(EmptyForm) == Some(NameRequired)
  {
  }

  /** `prev.map(c => c._id === id ? updated : c)` */
  function ReplaceById(categories: seq<CategoryRecord>, id: Id, updated: CategoryRecord): (r: seq<CategoryRecord>)
    ensures |r| == |categories|
    ensures forall k :: 0 <= k < |categories| ==> r[k] == if categories[k].id == id then updated else categories[k]
  {
    ReplaceWhere(categories, (x: CategoryRecord) => x.id == id, updated)
  }

  /** `prev.filter(c => c._id !== id)` */
  function RemoveById(categories: seq<CategoryRecord>, id: Id): (r: seq<CategoryRecord>)
    ensures forall k :: 0 <= k < |r| ==> r[k].id != id
    ensures forall k :: 0 <= k < |categories| && categories[k].id != id ==> categories[k] in r
    ensures IsSubsequence(r, categories)
  {
    Collections.Filter(categories, (x: CategoryRecord) => x.id != id)
  }

  datatype Request = NoRequest | CreateCategory(data: CategoryData) | UpdateCategory(id: Id, data: CategoryData)
                   | DeleteCategory(id: Id)

  class CategoryManager {
    var categories: seq<CategoryRecord>
    var form: CategoryForm
    var editing: Option<CategoryRecord>
    var showForm: bool
    var error: Option<string>

    constructor (categories: seq<CategoryRecord>)
      ensures this.categories == categories && form == EmptyForm && editing == None && !showForm && error == None
    {
      this.categories := categories;
      form := EmptyForm;
      editing := None;
      showForm := false;
      error := None;
    }

    /** `resetForm`: the default form, nothing being edited, the form hidden. */
    method ResetForm()
      modifies this
      ensures form == EmptyForm && editing == None && !showForm && error == None
      ensures categories == old(categories)
    {
      form := EmptyForm;
      editing := None;
      showForm := false;
      error := None;
    }

    /** `handleEdit` */
    method HandleEdit(c: CategoryRecord)
      modifies this
      ensures editing == Some(c) && form == EditForm(c) && showForm && error == None
      ensures categories == old(categories)
    {
      editing := Some(c);
      form := EditForm(c);
      showForm := true;
      error := None;
    }

    /**
     * `handleSubmit`. An invalid form sends nothing and changes nothing.
     * Otherwise the trimmed data is sent as an update of the category being
     * edited, or as a new category. On success the server's category
     * replaces the rows with the edited id, or is appended, and the form
     * resets; on failure the list and the form stay and the error is set.
     */
    method HandleSubmit(answer: Result<CategoryRecord, string>) returns (sent: Request)
      modifies this
      ensures ValidateForm(old(form)).Some? ==>
        && sent == NoRequest && categories == old(categories) && form == old(form)
        && editing == old(editing) && showForm == old(showForm) && error == old(error)
      ensures ValidateForm(old(form)).None? ==>
        sent == if old(editing).Some? then UpdateCategory(old(editing).value.id, SubmitData(old(form)))
                else CreateCategory(SubmitData(old(form)))
      ensures ValidateForm(old(form)).None? && answer.Ok? ==>
        && categories == (if old(editing).Some? then ReplaceById(old(categories), old(editing).value.id, answer.value)
                          else old(categories) + [answer.value])
        && form == EmptyForm && editing == None && !showForm && error == None
      ensures ValidateForm(old(form)).None? && answer.Err? ==>
        && categories == old(categories) && form == old(form) && editing == old(editing)
        && showForm == old(showForm) && error == Some(answer.error)
    {
      var verdict := ValidateForm(form);
      if verdict.Some? {
        return NoRequest;
      }
      var data := SubmitData(form);
      error := None;
      if editing.Some? {
        sent := UpdateCategory(editing.value.id, data);
      } else {
        sent := CreateCategory(data);
      }
      Settle(answer);
    }

    /**
     * The end of a sent submit: the server's category replaces the rows with
     * the edited id, or is appended, and the form resets; a failure sets the error.
     */
    method Settle(answer: Result<CategoryRecord, string>)
      modifies this
      ensures answer.Ok? ==>
        && categories == (if old(editing).Some? then ReplaceById(old(categories), old(editing).value.id, answer.value)
                          else old(categories) + [answer.value])
        && form == EmptyForm && editing == None && !showForm && error == None
      ensures answer.Err? ==>
        && categories == old(categories) && form == old(form) && editing == old(editing)
        && showForm == old(showForm) && error == Some(answer.error)
    {
      match answer
      case Ok(saved) =>
        if editing.Some? {
          categories := ReplaceById(categories, editing.value.id, saved);
        } else {
          categories := categories + [saved];
        }
        ResetForm();
      case Err(message) =>
        error := Some(message);
    }

    /** `handleDelete`: after the confirmation and the server's success, the rows with that id go. */
    method HandleDelete(id: Id, confirmed: bool, answer: Result<(), string>) returns (sent: Request)
      modifies this
      ensures form == old(form) && editing == old(editing) && showForm == old(showForm)
      ensures !confirmed ==> sent == NoRequest && categories == old(categories) && error == old(error)
      ensures confirmed ==> sent == DeleteCategory(id)
      ensures confirmed && answer.Ok? ==> categories == RemoveById(old(categories), id) && error == None
      ensures confirmed && answer.Err? ==> categories == old(categories) && error == Some(answer.error)
    {
      if !confirmed {
        return NoRequest;
      }
      error := None;
      sent := DeleteCategory(id);
      match answer
      case Ok(_) =>
        categories := RemoveById(categories, id);
      case Err(message) =>
        error := Some(message);
    }
  }
}
