/**
 * The project service: client-side validation of a project, the table of
 * HTTP status messages, and the validation short-circuit and error
 * classification of create, update and delete.
 */
module ProjectService {
  import opened Js
  import opened Http

  /** A project as the backend returns it (`id` or MongoDB's `_id`). */
  datatype Project = Project(id: Option<string>, dbId: Option<string>, name: string, createdAt: int, updatedAt: int)

  /** The form data the validator reads. */
  datatype ProjectInput = ProjectInput(name: Option<string>)

  const NameTooShort: string := "Projektnamn måste vara minst 3 tecken"
  const NameTooLong: string := "Projektnamn får inte vara längre än 100 tecken"
  const DuplicateName: string := "Ett projekt med detta namn finns redan"
  const DuplicateKeyMarker: string := "E11000 duplicate key error"
  const CannotConnect: string := "Kan inte ansluta till servern"
  const Unexpected: string := "Ett oväntat fel uppstod"
  const CannotDelete: string := "Kunde inte ta bort projekt"

  /** A name the backend's schema accepts: present, and 3 to 100 code units once trimmed. */
  predicate NameAccepted(name: Option<string>) {
    Truthy(name) && 3 <= Length(Trim(name.value)) <= 100
  }

  /** validateProjectData */
  function ValidateProjectData(d: ProjectInput): (v: Validation)
    ensures v.isValid <==> v.errors == map[]
    ensures v.isValid <==> NameAccepted(d.name)
    ensures v.errors.Keys <= {"name"}
    ensures (!Truthy(d.name) || Length(Trim(d.name.value)) < 3) <==> v.errors == map["name" := NameTooShort]
    ensures (Truthy(d.name) && Length(Trim(d.name.value)) > 100) <==> v.errors == map["name" := NameTooLong]
  {
    var errors: FieldErrors :=
      if !Truthy(d.name) || Length(Trim(d.name.value)) < 3 then map["name" := NameTooShort]
      else if Length(Trim(d.name.value)) > 100 then map["name" := NameTooLong]
      else map[];
    Validated(errors)
  }

  /** The fixed messages of getErrorMessageByStatus. */
  const StatusMessages: map<int, string> := map[
    400 := "Ogiltiga data skickades",
    401 := "Du är inte inloggad",
    403 := "Du har inte behörighet för denna åtgärd",
    404 := "Projektet hittades inte",
    409 := "Ett projekt med detta namn finns redan",
    422 := "Valideringsfel",
    500 := "Serverfel uppstod"]

  /** getErrorMessageByStatus */
  function GetErrorMessageByStatus(status: int): (r: string)
    ensures status == 400 ==> r == "Ogiltiga data skickades"
    ensures status == 401 ==> r == "Du är inte inloggad"
    ensures status == 403 ==> r == "Du har inte behörighet för denna åtgärd"
    ensures status == 404 ==> r == "Projektet hittades inte"
    ensures status == 409 ==> r == DuplicateName
    ensures status == 422 ==> r == ValidationFailed
    ensures status == 500 ==> r == "Serverfel uppstod"
    ensures status !in {400, 401, 403, 404, 409, 422, 500} ==> r == "HTTP-fel: " + IntToString(status)
    ensures r != ""
  {
    if status in StatusMessages then StatusMessages[status] else "HTTP-fel: " + IntToString(status)
  }

  /** The catch block of createProject. */
  function CreateFailure(e: JsError): (r: Envelope<Project>)
    ensures !r.success && r.WellFormed() && r.message.Some?
    ensures e.isApiError ==>
      r.message == Some(OrElse(e.message, "Kunde inte skapa projekt")) &&
      r.errors == Some(DataErrors(e)) && r.status == e.status
    ensures !e.isApiError && e.isNetworkError ==>
      r.message == Some(OrElse(e.message, CannotConnect)) && r.errors.None? && r.status.None?
    ensures !e.isApiError && !e.isNetworkError && e.response.Some? ==>
      r.message == Some(OrElse(ResponseMessage(e), GetErrorMessageByStatus(e.response.value.status))) &&
      r.errors == Some(ResponseErrors(e)) && r.status == Some(e.response.value.status)
    ensures !e.isApiError && !e.isNetworkError && e.response.None? ==>
      r.message == Some(OrElse(e.message, Unexpected)) && r.errors.None? && r.status.None?
  {
    if e.isApiError then
      Failed(OrElse(e.message, "Kunde inte skapa projekt"), Some(DataErrors(e)), e.status)
    else if e.isNetworkError then
      Failed(OrElse(e.message, CannotConnect), None, None)
    else if e.response.Some? then
      var status := e.response.value.status;
      Failed(OrElse(ResponseMessage(e), GetErrorMessageByStatus(status)), Some(ResponseErrors(e)), Some(status))
    else
      Failed(OrElse(e.message, Unexpected), None, None)
  }

  /** createProject: validate; only valid data is posted. */
  function CreateProject(d: ProjectInput, net: ApiResult<Project>): (c: Call<ProjectInput, Envelope<Project>>)
    ensures c.result.WellFormed()
    ensures !ValidateProjectData(d).isValid ==>
      c.sent.None? && c.result == Rejected(ValidateProjectData(d))
    ensures ValidateProjectData(d).isValid ==>
      c.sent == Some(Request(Post, ProjectsPath, Some(d))) &&
      c.result.success == net.Ok? &&
      (net.Ok? ==> c.result.item == Some(net.value) && c.result.message == Some("Projekt skapat framgångsrikt")) &&
      (net.Fail? ==> c.result == CreateFailure(net.error))
  {
    var v := ValidateProjectData(d);
    if !v.isValid then Call(None, Rejected(v))
    else
      Call(Some(Request(Post, ProjectsPath, Some(d))),
           match net
           case Ok(p) => Succeeded(p, Some("Projekt skapat framgångsrikt"))
           case Fail(e) => CreateFailure(e))
  }

  /** An error message reporting MongoDB's duplicate-key error. */
  predicate IsDuplicateKey(message: Option<string>) {
    Truthy(message) && Contains(message.value, DuplicateKeyMarker)
  }

  /** The catch block of updateProject. */
  function UpdateFailure(e: JsError): (r: Envelope<Project>)
    ensures !r.success && r.WellFormed() && r.message.Some?
    ensures IsDuplicateKey(e.message) ==>
      r == Failed(DuplicateName, None, Some(409))
    ensures !IsDuplicateKey(e.message) && e.isApiError ==>
      r.message == Some(OrElse(e.message, "Kunde inte uppdatera projekt")) &&
      r.errors == Some(DataErrors(e)) && r.status == e.status
    ensures !IsDuplicateKey(e.message) && !e.isApiError && e.isNetworkError ==>
      r.message == Some(OrElse(e.message, CannotConnect)) && r.errors.None? && r.status.None?
    ensures !IsDuplicateKey(e.message) && !e.isApiError && !e.isNetworkError && e.response.Some? ==>
      (IsDuplicateKey(ResponseMessage(e)) ==> r == Failed(DuplicateName, None, Some(409))) &&
      (!IsDuplicateKey(ResponseMessage(e)) ==>
        r.message == Some(OrElse(ResponseMessage(e), GetErrorMessageByStatus(e.response.value.status))) &&
        r.errors == Some(ResponseErrors(e)) && r.status == Some(e.response.value.status))
    ensures !IsDuplicateKey(e.message) && !e.isApiError && !e.isNetworkError && e.response.None? ==>
      r.message == Some(OrElse(e.message, Unexpected)) && r.errors.None? && r.status.None?
  {
    if IsDuplicateKey(e.message) then
      Failed(DuplicateName, None, Some(409))
    else if e.isApiError then
      Failed(OrElse(e.message, "Kunde inte uppdatera projekt"), Some(DataErrors(e)), e.status)
    else if e.isNetworkError then
      Failed(OrElse(e.message, CannotConnect), None, None)
    else if e.response.Some? then
      var status := e.response.value.status;
      if IsDuplicateKey(ResponseMessage(e)) then Failed(DuplicateName, None, Some(409))
      else Failed(OrElse(ResponseMessage(e), GetErrorMessageByStatus(status)), Some(ResponseErrors(e)), Some(status))
    else
      Failed(OrElse(e.message, Unexpected), None, None)
  }

  /** updateProject: validate; only valid data is put. */
  function UpdateProject(id: string, d: ProjectInput, net: ApiResult<Project>): (c: Call<ProjectInput, Envelope<Project>>)
    ensures c.result.WellFormed()
    ensures !ValidateProjectData(d).isValid ==>
      c.sent.None? && c.result == Rejected(ValidateProjectData(d))
    ensures ValidateProjectData(d).isValid ==>
      c.sent == Some(Request(Put, ProjectsPath + "/" + id, Some(d))) &&
      c.result.success == net.Ok? &&
      (net.Ok? ==> c.result.item == Some(net.value) && c.result.message == Some("Projekt uppdaterat framgångsrikt")) &&
      (net.Fail? ==> c.result == UpdateFailure(net.error))
  {
    var v := ValidateProjectData(d);
    if !v.isValid then Call(None, Rejected(v))
    else
      Call(Some(Request(Put, ProjectsPath + "/" + id, Some(d))),
           match net
           case Ok(p) => Succeeded(p, Some("Projekt uppdaterat framgångsrikt"))
           case Fail(e) => UpdateFailure(e))
  }

  /** The catch block of deleteProject: `error.response` is checked first. */
  function DeleteFailure(e: JsError): (r: Envelope<()>)
    ensures !r.success && r.WellFormed() && r.errors.None? && r.status.None?
    ensures e.response.Some? ==> r.message == Some(OrElse(ResponseMessage(e), CannotDelete))
    ensures e.response.None? && e.isApiError ==> r.message == Some(OrElse(DataMessage(e), CannotDelete))
    ensures e.response.None? && !e.isApiError ==> r.message == Some(OrElse(e.message, Unexpected))
  {
    if e.response.Some? then Failed(OrElse(ResponseMessage(e), CannotDelete), None, None)
    else if e.isApiError then Failed(OrElse(DataMessage(e), CannotDelete), None, None)
    else Failed(OrElse(e.message, Unexpected), None, None)
  }

  /** deleteProject: no validation, always sends the request. */
  function DeleteProject(id: string, net: ApiResult<()>): (c: Call<ProjectInput, Envelope<()>>)
    ensures c.sent == Some(Request(Delete, ProjectsPath + "/" + id, None))
    ensures c.result.success <==> net.Ok?
    ensures net.Ok? ==> c.result.message == Some("Projekt borttaget framgångsrikt")
    ensures net.Fail? ==> c.result == DeleteFailure(net.error)
  {
    Call(Some(Request(Delete, ProjectsPath + "/" + id, None)),
         match net
         case Ok(_) => Envelope(true, None, Some("Projekt borttaget framgångsrikt"), None, None)
         case Fail(e) => DeleteFailure(e))
  }

  /** Validation failure short-circuits: the envelope is the same whatever
      the network would have answered, and nothing is sent. */
  lemma InvalidProjectNeverReachesNetwork(id: string, d: ProjectInput, a: ApiResult<Project>, b: ApiResult<Project>)
    requires !NameAccepted(d.name)
    ensures CreateProject(d, a) == CreateProject(d, b) && CreateProject(d, a).sent.None?
    ensures UpdateProject(id, d, a) == UpdateProject(id, d, b) && UpdateProject(id, d, a).sent.None?
    ensures !CreateProject(d, a).result.success && CreateProject(d, a).result.message == Some(ValidationFailed)
  {
  }

  /** A two-letter name is rejected before any request is sent. */
  lemma TwoLetterNameRejected(net: ApiResult<Project>)
    ensures CreateProject(ProjectInput(Some("ab")), net).sent.None?
    ensures CreateProject(ProjectInput(Some("ab")), net).result.errors == Some(map["name" := NameTooShort])
  {
    var d := ProjectInput(Some("ab"));
    TrimStartNoWhite("ab");
    TrimEndNoWhite("ab");
    LengthOfBmp("ab");
    var v := ValidateProjectData(d);
    assert v.errors == map["name" := NameTooShort];
    var c := CreateProject(d, net);
    assert c.result == Rejected(v);
  }

  /** A duplicate-key message wins over every other classification of an
      update error, however the error is flagged. */
  lemma DuplicateKeyWins(e: JsError, prefix: string, suffix: string)
    requires e.message == Some(prefix + DuplicateKeyMarker + suffix)
    ensures UpdateFailure(e) == Failed(DuplicateName, None, Some(409))
  {
    var m := prefix + DuplicateKeyMarker + suffix;
    assert m[|prefix|..|prefix| + |DuplicateKeyMarker|] == DuplicateKeyMarker;
    assert OccursAt(m, DuplicateKeyMarker, |prefix|);
  }
}
