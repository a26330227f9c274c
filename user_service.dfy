/**
 * The user service: login, client-side validation of a user in create and
 * edit mode, the status messages of create, update and delete, and the
 * role label table.
 */
module UserService {
  import opened Js
  import opened Http
  import Roles

  /** A user as the users store caches it. */
  datatype User = User(id: Option<string>, dbId: Option<string>, username: string, role: string,
                       createdAt: int, updatedAt: int)

  /** The user record of a login response, kept in the session. */
  datatype SessionUser = SessionUser(id: string, username: string, role: Option<string>)

  /** The form data the validator reads. */
  datatype UserInput = UserInput(username: Option<string>, role: Option<string>, password: Option<string>)

  /** `{username, password}` posted to the login endpoint. */
  datatype Credentials = Credentials(username: string, password: string)

  /** What the login endpoint returns. */
  datatype LoginData = LoginData(token: string, user: SessionUser)

  /** The envelope of login(): `{success: true, token, user}` or
      `{success: false, message}`. */
  datatype LoginResponse = LoggedIn(token: string, user: SessionUser) | LoginFailed(message: string)

  /** login */
  function Login(username: string, password: string, net: ApiResult<LoginData>): (c: Call<Credentials, LoginResponse>)
    ensures c.sent == Some(Request(Post, LoginPath, Some(Credentials(username, password))))
    ensures net.Ok? ==> c.result == LoggedIn(net.value.token, net.value.user)
    ensures net.Fail? ==> c.result == LoginFailed(OrElse(net.error.message, "Inloggning misslyckades"))
  {
    Call(Some(Request(Post, LoginPath, Some(Credentials(username, password)))),
         match net
         case Ok(d) => LoggedIn(d.token, d.user)
         case Fail(e) => LoginFailed(OrElse(e.message, "Inloggning misslyckades")))
  }

  const UsernameTooShort: string := "Användarnamn måste vara minst 3 tecken"
  const UsernameTooLong: string := "Användarnamn får inte vara längre än 50 tecken"
  const UsernameBadChars: string :=
    "Användarnamn får bara innehålla bokstäver (inklusive åäö), siffror, punkt, underscore och bindestreck"
  const RoleRequired: string := "Giltig roll krävs"
  const PasswordTooShort: string := "Lösenord måste vara minst 6 tecken"

  /** `/^[\p{L}0-9._-]+$/u.test(s)`, where `isLetter` decides `\p{L}`. */
  predicate UsernameChars(s: string, isLetter: char -> bool) {
    |s| > 0 &&
    forall i :: 0 <= i < |s| ==> isLetter(s[i]) || ('0' <= s[i] <= '9') || s[i] == '.' || s[i] == '_' || s[i] == '-'
  }

  /** The username rules, in the order the validator applies them. */
  predicate UsernameTooShortFor(u: Option<string>) {
    !Truthy(u) || Length(Trim(u.value)) < 3
  }

  predicate UsernameAccepted(u: Option<string>, isLetter: char -> bool) {
    Truthy(u) && 3 <= Length(Trim(u.value)) <= 50 && UsernameChars(Trim(u.value), isLetter)
  }

  /** The password rule: required on create; on edit only a given one is checked. */
  predicate PasswordAccepted(p: Option<string>, isEditing: bool) {
    if isEditing then !Truthy(p) || Length(p.value) >= 6
    else Truthy(p) && Length(p.value) >= 6
  }

  /** The username entry: the first failing rule gives the only message. */
  function UsernameError(u: Option<string>, isLetter: char -> bool): (r: FieldErrors)
    ensures r.Keys <= {"username"}
    ensures "username" in r <==> !UsernameAccepted(u, isLetter)
    ensures UsernameTooShortFor(u) ==> "username" in r && r["username"] == UsernameTooShort
    ensures !UsernameTooShortFor(u) && Length(Trim(u.value)) > 50 ==>
              "username" in r && r["username"] == UsernameTooLong
    ensures !UsernameTooShortFor(u) && Length(Trim(u.value)) <= 50 && !UsernameChars(Trim(u.value), isLetter) ==>
              "username" in r && r["username"] == UsernameBadChars
  {
    if UsernameTooShortFor(u) then map["username" := UsernameTooShort]
    else if Length(Trim(u.value)) > 50 then map["username" := UsernameTooLong]
    else if !UsernameChars(Trim(u.value), isLetter) then map["username" := UsernameBadChars]
    else map[]
  }

  /** The role entry. */
  function RoleError(role: Option<string>): (r: FieldErrors)
    ensures r.Keys <= {"role"}
    ensures "role" in r <==> !(role.Some? && role.value in Roles.All)
    ensures "role" in r ==> r["role"] == RoleRequired
  {
    if !Truthy(role) || role.value !in Roles.All then map["role" := RoleRequired] else map[]
  }

  /** The password entry. */
  function PasswordError(p: Option<string>, isEditing: bool): (r: FieldErrors)
    ensures r.Keys <= {"password"}
    ensures "password" in r <==> !PasswordAccepted(p, isEditing)
    ensures "password" in r ==> r["password"] == PasswordTooShort
  {
    if !PasswordAccepted(p, isEditing) then map["password" := PasswordTooShort] else map[]
  }

  /** validateUserData(userData, isEditing); `isLetter` stands for the
      Unicode property `\p{L}`. Each field's entry is the one its own rule
      gives, whatever the other fields hold. */
  function ValidateUserData(d: UserInput, isEditing: bool, isLetter: char -> bool): (v: Validation)
    ensures v.isValid <==> v.errors == map[]
    ensures v.errors.Keys <= {"username", "role", "password"}
    ensures "username" in v.errors <==> "username" in UsernameError(d.username, isLetter)
    ensures "username" in v.errors ==> v.errors["username"] == UsernameError(d.username, isLetter)["username"]
    ensures "role" in v.errors <==> !(d.role.Some? && d.role.value in Roles.All)
    ensures "role" in v.errors ==> v.errors["role"] == RoleRequired
    ensures "password" in v.errors <==> !PasswordAccepted(d.password, isEditing)
    ensures "password" in v.errors ==> v.errors["password"] == PasswordTooShort
    ensures v.isValid <==>
      UsernameAccepted(d.username, isLetter) && d.role.Some? && d.role.value in Roles.All &&
      PasswordAccepted(d.password, isEditing)
  {
    var u := UsernameError(d.username, isLetter);
    var r := RoleError(d.role);
    var p := PasswordError(d.password, isEditing);
    DisjointUnion(u, r, p, "username", "role", "password");
    Validated(u + r + p)
  }

  /** Edit mode only relaxes the password rule: data valid for creation is
      valid for editing, and an edit without a password is valid exactly
      when its username and role are, although creation refuses it. */
  lemma EditModeIsLaxer(d: UserInput, isLetter: char -> bool)
    ensures ValidateUserData(d, false, isLetter).isValid ==> ValidateUserData(d, true, isLetter).isValid
    ensures d.password.None? ==>
      (ValidateUserData(d, true, isLetter).isValid <==>
         UsernameError(d.username, isLetter) == map[] && RoleError(d.role) == map[])
    ensures ValidateUserData(d, true, isLetter).isValid && d.password.None? ==>
              !ValidateUserData(d, false, isLetter).isValid
  {
  }

  /** The status messages of createUser's catch block. */
  function CreateStatusMessage(status: Option<int>): (m: string)
    ensures status == Some(400) ==> m == "Valideringsfel: Kontrollera att alla obligatoriska fält är ifyllda"
    ensures status == Some(409) ==> m == "Användarnamnet används redan"
    ensures status != Some(400) && status != Some(409) ==> m == "Kunde inte skapa användare"
  {
    if status == Some(400) then "Valideringsfel: Kontrollera att alla obligatoriska fält är ifyllda"
    else if status == Some(409) then "Användarnamnet används redan"
    else "Kunde inte skapa användare"
  }

  /** The catch block of createUser as written: the server's message and field errors are
      read from `error.response`. */
  function CreateFailureAsWritten(e: JsError): (r: Envelope<User>)
    ensures !r.success && r.WellFormed() && r.item.None? && r.status.None? && r.errors == Some(ResponseErrors(e))
    ensures Truthy(ResponseMessage(e)) ==> r.message == ResponseMessage(e)
    ensures !Truthy(ResponseMessage(e)) ==> r.message == Some(CreateStatusMessage(e.status))
  {
    Failed(OrElse(ResponseMessage(e), CreateStatusMessage(e.status)), Some(ResponseErrors(e)), None)
  }

  /** The corrected catch block of createUser, with the server's message and field errors read
      where the response interceptor puts them, `error.data`. */
  function CreateFailure(e: JsError): (r: Envelope<User>)
    ensures !r.success && r.WellFormed() && r.item.None? && r.status.None? && r.errors == Some(DataErrors(e))
    ensures Truthy(DataMessage(e)) ==> r.message == DataMessage(e)
    ensures !Truthy(DataMessage(e)) ==> r.message == Some(CreateStatusMessage(e.status))
  {
    Failed(OrElse(DataMessage(e), CreateStatusMessage(e.status)), Some(DataErrors(e)), None)
  }
  /** createUser: validated in create mode. */
  function CreateUser(d: UserInput, isLetter: char -> bool, net: ApiResult<User>): (c: Call<UserInput, Envelope<User>>)
    ensures c.result.WellFormed()
    ensures !ValidateUserData(d, false, isLetter).isValid ==>
      c.sent.None? && c.result == Rejected(ValidateUserData(d, false, isLetter))
    ensures ValidateUserData(d, false, isLetter).isValid ==>
      c.sent == Some(Request(Post, UsersPath, Some(d))) &&
      c.result.success == net.Ok? &&
      (net.Ok? ==> c.result.item == Some(net.value) && c.result.message == Some("Användare skapad framgångsrikt")) &&
      (net.Fail? ==> c.result == CreateFailureAsWritten(net.error))
  {
    var v := ValidateUserData(d, false, isLetter);
    if !v.isValid then Call(None, Rejected(v))
    else
      Call(Some(Request(Post, UsersPath, Some(d))),
           match net
           case Ok(u) => Succeeded(u, Some("Användare skapad framgångsrikt"))
           case Fail(e) => CreateFailureAsWritten(e))
  }

  /** The status messages of updateUser's catch block. */
  function UpdateStatusMessage(status: Option<int>): (m: string)
    ensures status == Some(400) ==> m == "Valideringsfel: Kontrollera att alla fält är korrekt ifyllda"
    ensures status == Some(404) ==> m == "Användaren hittades inte"
    ensures status == Some(409) ==> m == "Användarnamnet används redan av annan användare"
    ensures status != Some(400) && status != Some(404) && status != Some(409) ==> m == "Kunde inte uppdatera användare"
  {
    if status == Some(400) then "Valideringsfel: Kontrollera att alla fält är korrekt ifyllda"
    else if status == Some(404) then "Användaren hittades inte"
    else if status == Some(409) then "Användarnamnet används redan av annan användare"
    else "Kunde inte uppdatera användare"
  }

  /** The catch block of updateUser as written: the server's message and field errors are
      read from `error.response`. */
  function UpdateFailureAsWritten(e: JsError): (r: Envelope<User>)
    ensures !r.success && r.WellFormed() && r.item.None? && r.status.None? && r.errors == Some(ResponseErrors(e))
    ensures Truthy(ResponseMessage(e)) ==> r.message == ResponseMessage(e)
    ensures !Truthy(ResponseMessage(e)) ==> r.message == Some(UpdateStatusMessage(e.status))
  {
    Failed(OrElse(ResponseMessage(e), UpdateStatusMessage(e.status)), Some(ResponseErrors(e)), None)
  }

  /** The corrected catch block of updateUser, with the server's message and field errors read
      where the response interceptor puts them, `error.data`. */
  function UpdateFailure(e: JsError): (r: Envelope<User>)
    ensures !r.success && r.WellFormed() && r.item.None? && r.status.None? && r.errors == Some(DataErrors(e))
    ensures Truthy(DataMessage(e)) ==> r.message == DataMessage(e)
    ensures !Truthy(DataMessage(e)) ==> r.message == Some(UpdateStatusMessage(e.status))
  {
    Failed(OrElse(DataMessage(e), UpdateStatusMessage(e.status)), Some(DataErrors(e)), None)
  }
  /** updateUser: validated in edit mode. */
  function UpdateUser(id: string, d: UserInput, isLetter: char -> bool, net: ApiResult<User>): (c: Call<UserInput, Envelope<User>>)
    ensures c.result.WellFormed()
    ensures !ValidateUserData(d, true, isLetter).isValid ==>
      c.sent.None? && c.result == Rejected(ValidateUserData(d, true, isLetter))
    ensures ValidateUserData(d, true, isLetter).isValid ==>
      c.sent == Some(Request(Put, UsersPath + "/" + id, Some(d))) &&
      c.result.success == net.Ok? &&
      (net.Ok? ==> c.result.item == Some(net.value) && c.result.message == Some("Användare uppdaterad framgångsrikt")) &&
      (net.Fail? ==> c.result == UpdateFailureAsWritten(net.error))
  {
    var v := ValidateUserData(d, true, isLetter);
    if !v.isValid then Call(None, Rejected(v))
    else
      Call(Some(Request(Put, UsersPath + "/" + id, Some(d))),
           match net
           case Ok(u) => Succeeded(u, Some("Användare uppdaterad framgångsrikt"))
           case Fail(e) => UpdateFailureAsWritten(e))
  }

  /** The status messages of deleteUser's catch block. */
  function DeleteStatusMessage(status: Option<int>): (m: string)
    ensures status == Some(404) ==> m == "Användaren hittades inte"
    ensures status == Some(409) ==> m == "Användaren kan inte tas bort"
    ensures status != Some(404) && status != Some(409) ==> m == "Kunde inte ta bort användare"
  {
    if status == Some(404) then "Användaren hittades inte"
    else if status == Some(409) then "Användaren kan inte tas bort"
    else "Kunde inte ta bort användare"
  }

  /** The catch block of deleteUser as written: the server's message are
      read from `error.response`. */
  function DeleteFailureAsWritten(e: JsError): (r: Envelope<()>)
    ensures !r.success && r.WellFormed() && r.item.None? && r.status.None? && r.errors == None
    ensures Truthy(ResponseMessage(e)) ==> r.message == ResponseMessage(e)
    ensures !Truthy(ResponseMessage(e)) ==> r.message == Some(DeleteStatusMessage(e.status))
  {
    Failed(OrElse(ResponseMessage(e), DeleteStatusMessage(e.status)), None, None)
  }

  /** The corrected catch block of deleteUser, with the server's message read
      where the response interceptor puts them, `error.data`. */
  function DeleteFailure(e: JsError): (r: Envelope<()>)
    ensures !r.success && r.WellFormed() && r.item.None? && r.status.None? && r.errors == None
    ensures Truthy(DataMessage(e)) ==> r.message == DataMessage(e)
    ensures !Truthy(DataMessage(e)) ==> r.message == Some(DeleteStatusMessage(e.status))
  {
    Failed(OrElse(DataMessage(e), DeleteStatusMessage(e.status)), None, None)
  }
  /** deleteUser */
  function DeleteUser(id: string, net: ApiResult<()>): (c: Call<UserInput, Envelope<()>>)
    ensures c.sent == Some(Request(Delete, UsersPath + "/" + id, None))
    ensures c.result.success <==> net.Ok?
    ensures net.Ok? ==> c.result.message == Some("Användare borttagen framgångsrikt")
    ensures net.Fail? ==> c.result == DeleteFailureAsWritten(net.error)
  {
    Call(Some(Request(Delete, UsersPath + "/" + id, None)),
         match net
         case Ok(_) => Envelope(true, None, Some("Användare borttagen framgångsrikt"), None, None)
         case Fail(e) => DeleteFailureAsWritten(e))
  }

  /** Validation failure short-circuits in both modes. */
  lemma InvalidUserNeverReachesNetwork(id: string, d: UserInput, isLetter: char -> bool, a: ApiResult<User>, b: ApiResult<User>)
    ensures !ValidateUserData(d, false, isLetter).isValid ==>
      CreateUser(d, isLetter, a) == CreateUser(d, isLetter, b) && CreateUser(d, isLetter, a).sent.None?
    ensures !ValidateUserData(d, true, isLetter).isValid ==>
      UpdateUser(id, d, isLetter, a) == UpdateUser(id, d, isLetter, b) && UpdateUser(id, d, isLetter, a).sent.None?
  {
  }

  /** getRoleDisplayName: the four roles get fixed labels, anything else is
      returned as it is. */
  function RoleDisplayName(role: string): (r: string)
    ensures role == "admin" ==> r == "Administratör"
    ensures role == "designer" ==> r == "Designer"
    ensures role == "developer" ==> r == "Utvecklare"
    ensures role == "tester" ==> r == "Testare"
    ensures role !in Roles.All ==> r == role
  {
    match role
    case "admin" => "Administratör"
    case "designer" => "Designer"
    case "developer" => "Utvecklare"
    case "tester" => "Testare"
    case _ => role
  }
}
