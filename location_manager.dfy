/**
 * frontend/src/components/admin/LocationManager.jsx: the admin's location
 * list and form. The component state (`locations`, `formData`,
 * `editingLocation`, `showForm`, `error`) is the class `LocationManager`;
 * the answers of the API calls and of `window.confirm` are parameters, and
 * each handler returns the request it sends. Coordinates are not modelled.
 */
module LocationManager {
  import opened Wrappers
  import opened Ids
  import opened Text
  import opened Collections
  import Validators

  /** A location as the API returns it; `country` may be missing. */
  datatype LocationRecord = LocationRecord(id: Id, city: string, department: string, country: Option<string>)

  datatype LocationForm = LocationForm(city: string, department: string, country: string)

  const DefaultCountry := "Colombia"
  const EmptyForm := LocationForm("", "", DefaultCountry)

  datatype FormError = CityRequired | DepartmentRequired

  /** `validateForm` without the coordinate checks: the city first, then the department. */
  function ValidateForm(form: LocationForm): (e: Option<FormError>)
    ensures e.None? <==> Trim(form.city) != "" && Trim(form.department) != ""
    ensures Trim(form.city) == "" ==> e == Some(CityRequired)
    ensures Trim(form.city) != "" && Trim(form.department) == "" ==> e == Some(DepartmentRequired)
  {
    if Trim(form.city) == "" then Some(CityRequired)
    else if Trim(form.department) == "" then Some(DepartmentRequired)
    else None
  }

  /** The request body: city, department and country trimmed. */
  datatype LocationData = LocationData(city: string, department: string, country: string)

  function SubmitData(form: LocationForm): (d: LocationData)
    ensures d.city == Trim(form.city) && d.department == Trim(form.department) && d.country == Trim(form.country)
  {
    LocationData(Trim(form.city), Trim(form.department), Trim(form.country))
  }

  /** `handleEdit`: a missing or empty country becomes `Colombia`. */
  function EditForm(l: LocationRecord): (form: LocationForm)
    ensures form.city == l.city && form.department == l.department
    ensures form.country == OrDefault(l.country, DefaultCountry) && form.country != ""
  {
    LocationForm(l.city, l.department, OrDefault(l.country, DefaultCountry))
  }

  /**
   * The form is weaker than the server's `validateLocation`: data the
   * server accepts, the form accepts too.
   */
  lemma ServerAcceptedFormAccepted(form: LocationForm)
    requires Validators.LocationErrors(SubmitData(form).city, SubmitData(form).department,
                                       Some(SubmitData(form).country)) == []
    ensures ValidateForm(form).None?
  {
    TrimIdempotent(form.city);
    TrimIdempotent(form.department);
  }

  /** ... and not the other way round: a one-letter city passes the form and fails on the server. */
  lemma OneLetterCityOnlyPassesForm(form: LocationForm)
    requires |Trim(form.city)| == 1 && Trim(form.department) != ""
    ensures ValidateForm(form).None?
    ensures Validators.LocationErrors(SubmitData(form).city, SubmitData(form).department,
                                      Some(SubmitData(form).country)) != []
  {
    TrimIdempotent(form.city);
  }

  /** Editing a stored location and submitting unchanged sends its fields back when they are trimmed. */
  lemma EditSubmitRoundTrip(l: LocationRecord)
    requires Trim(l.city) == l.city && Trim(l.department) == l.department
    requires l.country.Some? ==> Trim(l.country.value) == l.country.value
    ensures SubmitData(EditForm(l)) == LocationData(l.city, l.department, OrDefault(l.country, DefaultCountry))
    ensures ValidateForm(EditForm(l)).None? <==> l.city != "" && l.department != ""
  {
    EditSubmitData(l);
    EditValidate(l);
  }

  lemma EditSubmitData(l: LocationRecord)
    requires Trim(l.city) == l.city && Trim(l.department) == l.department
    requires l.country.Some? ==> Trim(l.country.value) == l.country.value
    ensures SubmitData(EditForm(l)) == LocationData(l.city, l.department, OrDefault(l.country, DefaultCountry))
  {
    var country := OrDefault(l.country, DefaultCountry);
    if l.country.Some? && l.country.value != "" {
      assert country == l.country.value;
    } else {
      DefaultCountryTrimmed();
      assert country == DefaultCountry;
    }
    assert EditForm(l) == LocationForm(l.city, l.department, country);
    assert SubmitData(EditForm(l)) == LocationData(Trim(l.city), Trim(l.department), Trim(country));
  }

  lemma DefaultCountryTrimmed()
    ensures Trim(DefaultCountry) == DefaultCountry
  {
    TrimOfTrimmed(DefaultCountry);
  }

  lemma EditValidate(l: LocationRecord)
    requires Trim(l.city) == l.city && Trim(l.department) == l.department
    ensures ValidateForm(EditForm(l)).None? <==> l.city != "" && l.department != ""
  {
  }

  /** A reset form cannot be submitted: its city is empty. */
  lemma EmptyFormRejected()
    ensures ValidateForm(EmptyForm) == Some(CityRequired)
  {
  }

  /** `prev.map(l => l._id === id ? updated : l)` */
  function ReplaceById(locations: seq<LocationRecord>, id: Id, updated: LocationRecord): (r: seq<LocationRecord>)
    ensures |r| == |locations|
    ensures forall k :: 0 <= k < |locations| ==> r[k] == if locations[k].id == id then updated else locations[k]
  {
    ReplaceWhere(locations, (x: LocationRecord) => x.id == id, updated)
  }

  /** `prev.filter(l => l._id !== id)` */
  function RemoveById(locations: seq<LocationRecord>, id: Id): (r: seq<LocationRecord>)
    ensures forall k :: 0 <= k < |r| ==> r[k].id != id
    ensures forall k :: 0 <= k < |locations| && locations[k].id != id ==> locations[k] in r
    ensures IsSubsequence(r, locations)
  {
    Collections.Filter(locations, (x: LocationRecord) => x.id != id)
  }

  datatype Request = NoRequest | CreateLocation(data: LocationData) | UpdateLocation(id: Id, data: LocationData)
                   | DeleteLocation(id: Id)

  class LocationManager {
    var locations: seq<LocationRecord>
    var form: LocationForm
    var editing: Option<LocationRecord>
    var showForm: bool
    var error: Option<string>

    constructor (locations: seq<LocationRecord>)
      ensures this.locations == locations && form == EmptyForm && editing == None && !showForm && error == None
    {
      this.locations := locations;
      form := EmptyForm;
      editing := None;
      showForm := false;
      error := None;
    }

    /** `resetForm`: empty fields with country `Colombia`, nothing being edited, the form hidden. */
    method ResetForm()
      modifies this
      ensures form == EmptyForm && editing == None && !showForm && error == None
      ensures locations == old(locations)
    {
      form := EmptyForm;
      editing := None;
      showForm := false;
      error := None;
    }

    /** `handleEdit` */
    method HandleEdit(l: LocationRecord)
      modifies this
      ensures editing == Some(l) && form == EditForm(l) && showForm && error == None
      ensures locations == old(locations)
    {
      editing := Some(l);
      form := EditForm(l);
      showForm := true;
      error := None;
    }

    /**
     * `handleSubmit`. An invalid form sends nothing and changes nothing.
     * Otherwise the trimmed data is sent as an update of the location being
     * edited, or as a new location, and `Settle` applies the answer.
     */
    method HandleSubmit(answer: Result<LocationRecord, string>) returns (sent: Request)
      modifies this
      ensures ValidateForm(old(form)).Some? ==>
        && sent == NoRequest && locations == old(locations) && form == old(form)
        && editing == old(editing) && showForm == old(showForm) && error == old(error)
      ensures ValidateForm(old(form)).None? ==>
        sent == if old(editing).Some? then UpdateLocation(old(editing).value.id, SubmitData(old(form)))
                else CreateLocation(SubmitData(old(form)))
      ensures ValidateForm(old(form)).None? && answer.Ok? ==>
        && locations == (if old(editing).Some? then ReplaceById(old(locations), old(editing).value.id, answer.value)
                         else old(locations) + [answer.value])
        && form == EmptyForm && editing == None && !showForm && error == None
      ensures ValidateForm(old(form)).None? && answer.Err? ==>
        && locations == old(locations) && form == old(form) && editing == old(editing)
        && showForm == old(showForm) && error == Some(answer.error)
    {
      var verdict := ValidateForm(form);
      if verdict.Some? {
        return NoRequest;
      }
      sent := Send(answer);
    }

    /** The part of `handleSubmit` after the form passed validation. */
    method Send(answer: Result<LocationRecord, string>) returns (sent: Request)
      modifies this
      ensures sent == if old(editing).Some? then UpdateLocation(old(editing).value.id, SubmitData(old(form)))
                      else CreateLocation(SubmitData(old(form)))
      ensures answer.Ok? ==>
        && locations == (if old(editing).Some? then ReplaceById(old(locations), old(editing).value.id, answer.value)
                         else old(locations) + [answer.value])
        && form == EmptyForm && editing == None && !showForm && error == None
      ensures answer.Err? ==>
        && locations == old(locations) && form == old(form) && editing == old(editing)
        && showForm == old(showForm) && error == Some(answer.error)
    {
      var data := SubmitData(form);
      error := None;
      if editing.Some? {
        sent := UpdateLocation(editing.value.id, data);
      } else {
        sent := CreateLocation(data);
      }
      Settle(answer);
    }

    /**
     * The end of a sent submit: the server's location replaces the rows with
     * the edited id, or is appended, and the form resets; a failure sets the error.
     */
    method Settle(answer: Result<LocationRecord, string>)
      modifies this
      ensures answer.Ok? ==>
        && locations == (if old(editing).Some? then ReplaceById(old(locations), old(editing).value.id, answer.value)
                         else old(locations) + [answer.value])
        && form == EmptyForm && editing == None && !showForm && error == None
      ensures answer.Err? ==>
        && locations == old(locations) && form == old(form) && editing == old(editing)
        && showForm == old(showForm) && error == Some(answer.error)
    {
      match answer
      case Ok(saved) =>
        if editing.Some? {
          locations := ReplaceById(locations, editing.value.id, saved);
        } else {
          locations := locations + [saved];
        }
        ResetForm();
      case Err(message) =>
        error := Some(message);
    }

    /** `handleDelete`: after the confirmation and the server's success, the rows with that id go. */
    method HandleDelete(id: Id, confirmed: bool, answer: Result<(), string>) returns (sent: Request)
      modifies this
      ensures form == old(form) && editing == old(editing) && showForm == old(showForm)
      ensures !confirmed ==> sent == NoRequest && locations == old(locations) && error == old(error)
      ensures confirmed ==> sent == DeleteLocation(id)
      ensures confirmed && answer.Ok? ==> locations == RemoveById(old(locations), id) && error == None
      ensures confirmed && answer.Err? ==> locations == old(locations) && error == Some(answer.error)
    {
      if !confirmed {
        return NoRequest;
      }
      error := None;
      sent := DeleteLocation(id);
      match answer
      case Ok(_) =>
        locations := RemoveById(locations, id);
      case Err(message) =>
        error := Some(message);
    }
  }
}
