/**
 * The post service: normalisation of the post-list response, client-side
 * validation of a post, the status messages of create, update and delete,
 * and the role label table for posts.
 */
module PostService {
  import opened Js
  import opened Http
  import Roles

  /** A post as the posts store caches it. */
  datatype Post = Post(id: Option<string>, dbId: Option<string>, title: string, content: string,
                       role: string, createdAt: int, updatedAt: int)

  /** The form data the validator reads. */
  datatype PostInput = PostInput(title: Option<string>, role: Option<string>, content: Option<string>)

  /**
   * The body of a response to `GET /posts`, as far as `getAllPosts` looks
   * at it: an array, an object whose `posts` and `data` properties may or
   * may not be arrays, or nothing.
   */
  datatype PostsData =
    | PostArray(items: seq<Post>)
    | Wrapped(posts: Option<seq<Post>>, data: Option<seq<Post>>)
    | NoData

  /** The `if / else if` choice of getAllPosts: the bare array, else
      `data.posts`, else `data.data`, else `[]`. */
  function NormalizePosts(d: PostsData): (r: seq<Post>)
    ensures d.PostArray? ==> r == d.items
    ensures d.Wrapped? && d.posts.Some? ==> r == d.posts.value
    ensures d.Wrapped? && d.posts.None? && d.data.Some? ==> r == d.data.value
    ensures d.NoData? || (d.Wrapped? && d.posts.None? && d.data.None?) ==> r == []
  {
    match d
    case PostArray(items) => items
    case Wrapped(Some(p), _) => p
    case Wrapped(None, Some(q)) => q
    case _ => []
  }

  /** Every post the normalised list holds was in the response. */
  lemma NormalizedPostsComeFromResponse(d: PostsData, p: Post)
    requires p in NormalizePosts(d)
    ensures d.PostArray? ==> p in d.items
    ensures d.Wrapped? ==> (d.posts.Some? && p in d.posts.value) || (d.data.Some? && p in d.data.value)
    ensures !d.NoData?
  {
  }

  /** getAllPosts */
  function GetAllPosts(net: ApiResult<PostsData>): (c: Call<PostInput, Envelope<seq<Post>>>)
    ensures c.sent == Some(Request(Get, PostsPath, None))
    ensures c.result.WellFormed() && c.result.item.Some?
    ensures c.result.success <==> net.Ok?
    ensures net.Ok? ==>
      c.result.item == Some(NormalizePosts(net.value)) &&
      c.result.message == Some("Hämtade " + IntToString(|NormalizePosts(net.value)|) + " inlägg")
    ensures net.Fail? ==>
      c.result.item == Some([]) && c.result.message == Some(OrElse(net.error.message, "Kunde inte hämta inlägg"))
  {
    Call(Some(Request(Get, PostsPath, None)),
         match net
         case Ok(d) =>
           var posts := NormalizePosts(d);
           Succeeded(posts, Some("Hämtade " + IntToString(|posts|) + " inlägg"))
         case Fail(e) => Envelope(false, Some([]), Some(OrElse(e.message, "Kunde inte hämta inlägg")), None, None))
  }

  const TitleRequired: string := "Titel är obligatorisk"
  const TitleTooShort: string := "Titel måste vara minst 3 tecken"
  const TitleTooLong: string := "Titel får inte vara längre än 100 tecken"
  const RoleRequired: string := "Roll är obligatorisk"
  const RoleNotForPosts: string := "Roll måste vara antingen \"designer\", \"developer\" eller \"tester\""
  const ContentRequired: string := "Innehåll är obligatoriskt"
  const ContentTooShort: string := "Innehåll måste vara minst 10 tecken"

  /** `!s || !s.trim()`: absent, empty or white space only. */
  predicate Blank(s: Option<string>) {
    !Truthy(s) || Trim(s.value) == ""
  }

  function TitleError(t: Option<string>): (r: FieldErrors)
    ensures r.Keys <= {"title"}
    ensures "title" in r <==> !(!Blank(t) && 3 <= Length(Trim(t.value)) <= 100)
    ensures Blank(t) ==> r == map["title" := TitleRequired]
    ensures !Blank(t) && Length(Trim(t.value)) < 3 ==> r == map["title" := TitleTooShort]
    ensures !Blank(t) && Length(Trim(t.value)) > 100 ==> r == map["title" := TitleTooLong]
  {
    if Blank(t) then map["title" := TitleRequired]
    else if Length(Trim(t.value)) < 3 then map["title" := TitleTooShort]
    else if Length(Trim(t.value)) > 100 then map["title" := TitleTooLong]
    else map[]
  }

  function PostRoleError(role: Option<string>): (r: FieldErrors)
    ensures r.Keys <= {"role"}
    ensures "role" in r <==> !(role.Some? && role.value in Roles.NonAdmin)
    ensures !Truthy(role) ==> r == map["role" := RoleRequired]
    ensures Truthy(role) && role.value !in Roles.NonAdmin ==> r == map["role" := RoleNotForPosts]
  {
    if !Truthy(role) then map["role" := RoleRequired]
    else if role.value !in Roles.NonAdmin then map["role" := RoleNotForPosts]
    else map[]
  }

  function ContentError(c: Option<string>): (r: FieldErrors)
    ensures r.Keys <= {"content"}
    ensures "content" in r <==> !(!Blank(c) && Length(Trim(c.value)) >= 10)
    ensures Blank(c) ==> r == map["content" := ContentRequired]
    ensures !Blank(c) && Length(Trim(c.value)) < 10 ==> r == map["content" := ContentTooShort]
  {
    if Blank(c) then map["content" := ContentRequired]
    else if Length(Trim(c.value)) < 10 then map["content" := ContentTooShort]
    else map[]
  }

  /** validatePostData: each field's entry is the one its own rule gives. */
  function ValidatePostData(d: PostInput): (v: Validation)
    ensures v.isValid <==> v.errors == map[]
    ensures v.errors.Keys <= {"title", "role", "content"}
    ensures "title" in v.errors <==> "title" in TitleError(d.title)
    ensures "title" in v.errors ==> v.errors["title"] == TitleError(d.title)["title"]
    ensures "role" in v.errors <==> "role" in PostRoleError(d.role)
    ensures "role" in v.errors ==> v.errors["role"] == PostRoleError(d.role)["role"]
    ensures "content" in v.errors <==> "content" in ContentError(d.content)
    ensures "content" in v.errors ==> v.errors["content"] == ContentError(d.content)["content"]
    ensures v.isValid <==>
      !Blank(d.title) && 3 <= Length(Trim(d.title.value)) <= 100 &&
      d.role.Some? && d.role.value in Roles.NonAdmin &&
      !Blank(d.content) && Length(Trim(d.content.value)) >= 10
  {
    var t := TitleError(d.title);
    var r := PostRoleError(d.role);
    var c := ContentError(d.content);
    DisjointUnion(t, r, c, "title", "role", "content");
    Validated(t + r + c)
  }

  /** An administrator's post is always rejected, with the role message. */
  lemma AdminPostRejected(d: PostInput)
    requires d.role == Some("admin")
    ensures !ValidatePostData(d).isValid
    ensures ValidatePostData(d).errors["role"] == RoleNotForPosts
  {
  }

  /** The status messages of createPost's catch block. */
  function CreateStatusMessage(status: Option<int>): (m: string)
    ensures status == Some(400) ==> m == "Valideringsfel: Kontrollera att alla obligatoriska fält är ifyllda"
    ensures status == Some(403) ==> m == "Du har inte behörighet att skapa inlägg"
    ensures status != Some(400) && status != Some(403) ==> m == "Kunde inte skapa inlägg"
  {
    if status == Some(400) then "Valideringsfel: Kontrollera att alla obligatoriska fält är ifyllda"
    else if status == Some(403) then "Du har inte behörighet att skapa inlägg"
    else "Kunde inte skapa inlägg"
  }

  /** The catch block of createPost as written: the server's message and field errors are
      read from `error.response`. */
  function CreateFailureAsWritten(e: JsError): (r: Envelope<Post>)
    ensures !r.success && r.WellFormed() && r.item.None? && r.status.None? && r.errors == Some(ResponseErrors(e))
    ensures Truthy(ResponseMessage(e)) ==> r.message == ResponseMessage(e)
    ensures !Truthy(ResponseMessage(e)) ==> r.message == Some(CreateStatusMessage(e.status))
  {
    Failed(OrElse(ResponseMessage(e), CreateStatusMessage(e.status)), Some(ResponseErrors(e)), None)
  }

  /** The corrected catch block of createPost, with the server's message and field errors read
      where the response interceptor puts them, `error.data`. */
  function CreateFailure(e: JsError): (r: Envelope<Post>)
    ensures !r.success && r.WellFormed() && r.item.None? && r.status.None? && r.errors == Some(DataErrors(e))
    ensures Truthy(DataMessage(e)) ==> r.message == DataMessage(e)
    ensures !Truthy(DataMessage(e)) ==> r.message == Some(CreateStatusMessage(e.status))
  {
    Failed(OrElse(DataMessage(e), CreateStatusMessage(e.status)), Some(DataErrors(e)), None)
  }
  /** createPost */
  function CreatePost(d: PostInput, net: ApiResult<Post>): (c: Call<PostInput, Envelope<Post>>)
    ensures c.result.WellFormed()
    ensures !ValidatePostData(d).isValid ==> c.sent.None? && c.result == Rejected(ValidatePostData(d))
    ensures ValidatePostData(d).isValid ==>
      c.sent == Some(Request(Verb.Post, PostsPath, Some(d))) &&
      c.result.success == net.Ok? &&
      (net.Ok? ==> c.result.item == Some(net.value) && c.result.message == Some("Inlägg skapat framgångsrikt")) &&
      (net.Fail? ==> c.result == CreateFailureAsWritten(net.error))
  {
    var v := ValidatePostData(d);
    if !v.isValid then Call(None, Rejected(v))
    else
      Call(Some(Request(Verb.Post, PostsPath, Some(d))),
           match net
           case Ok(p) => Succeeded(p, Some("Inlägg skapat framgångsrikt"))
           case Fail(e) => CreateFailureAsWritten(e))
  }

  /** The status messages of updatePost's catch block. */
  function UpdateStatusMessage(status: Option<int>): (m: string)
    ensures status == Some(400) ==> m == "Valideringsfel: Kontrollera att alla fält är korrekt ifyllda"
    ensures status == Some(404) ==> m == "Inlägget hittades inte"
    ensures status == Some(403) ==> m == "Du har inte behörighet att uppdatera detta inlägg"
    ensures status != Some(400) && status != Some(404) && status != Some(403) ==> m == "Kunde inte uppdatera inlägg"
  {
    if status == Some(400) then "Valideringsfel: Kontrollera att alla fält är korrekt ifyllda"
    else if status == Some(404) then "Inlägget hittades inte"
    else if status == Some(403) then "Du har inte behörighet att uppdatera detta inlägg"
    else "Kunde inte uppdatera inlägg"
  }

  /** The catch block of updatePost as written: the server's message and field errors are
      read from `error.response`. */
  function UpdateFailureAsWritten(e: JsError): (r: Envelope<Post>)
    ensures !r.success && r.WellFormed() && r.item.None? && r.status.None? && r.errors == Some(ResponseErrors(e))
    ensures Truthy(ResponseMessage(e)) ==> r.message == ResponseMessage(e)
    ensures !Truthy(ResponseMessage(e)) ==> r.message == Some(UpdateStatusMessage(e.status))
  {
    Failed(OrElse(ResponseMessage(e), UpdateStatusMessage(e.status)), Some(ResponseErrors(e)), None)
  }

  /** The corrected catch block of updatePost, with the server's message and field errors read
      where the response interceptor puts them, `error.data`. */
  function UpdateFailure(e: JsError): (r: Envelope<Post>)
    ensures !r.success && r.WellFormed() && r.item.None? && r.status.None? && r.errors == Some(DataErrors(e))
    ensures Truthy(DataMessage(e)) ==> r.message == DataMessage(e)
    ensures !Truthy(DataMessage(e)) ==> r.message == Some(UpdateStatusMessage(e.status))
  {
    Failed(OrElse(DataMessage(e), UpdateStatusMessage(e.status)), Some(DataErrors(e)), None)
  }
  /** updatePost */
  function UpdatePost(id: string, d: PostInput, net: ApiResult<Post>): (c: Call<PostInput, Envelope<Post>>)
    ensures c.result.WellFormed()
    ensures !ValidatePostData(d).isValid ==> c.sent.None? && c.result == Rejected(ValidatePostData(d))
    ensures ValidatePostData(d).isValid ==>
      c.sent == Some(Request(Put, PostsPath + "/" + id, Some(d))) &&
      c.result.success == net.Ok? &&
      (net.Ok? ==> c.result.item == Some(net.value) && c.result.message == Some("Inlägg uppdaterat framgångsrikt")) &&
      (net.Fail? ==> c.result == UpdateFailureAsWritten(net.error))
  {
    var v := ValidatePostData(d);
    if !v.isValid then Call(None, Rejected(v))
    else
      Call(Some(Request(Put, PostsPath + "/" + id, Some(d))),
           match net
           case Ok(p) => Succeeded(p, Some("Inlägg uppdaterat framgångsrikt"))
           case Fail(e) => UpdateFailureAsWritten(e))
  }

  /** The status messages of deletePost's catch block. */
  function DeleteStatusMessage(status: Option<int>): (m: string)
    ensures status == Some(404) ==> m == "Inlägget hittades inte"
    ensures status == Some(403) ==> m == "Du har inte behörighet att radera detta inlägg"
    ensures status != Some(404) && status != Some(403) ==> m == "Kunde inte radera inlägg"
  {
    if status == Some(404) then "Inlägget hittades inte"
    else if status == Some(403) then "Du har inte behörighet att radera detta inlägg"
    else "Kunde inte radera inlägg"
  }

  /** The catch block of deletePost as written: the server's message are
      read from `error.response`. */
  function DeleteFailureAsWritten(e: JsError): (r: Envelope<()>)
    ensures !r.success && r.WellFormed() && r.item.None? && r.status.None? && r.errors == None
    ensures Truthy(ResponseMessage(e)) ==> r.message == ResponseMessage(e)
    ensures !Truthy(ResponseMessage(e)) ==> r.message == Some(DeleteStatusMessage(e.status))
  {
    Failed(OrElse(ResponseMessage(e), DeleteStatusMessage(e.status)), None, None)
  }

  /** The corrected catch block of deletePost, with the server's message read
      where the response interceptor puts them, `error.data`. */
  function DeleteFailure(e: JsError): (r: Envelope<()>)
    ensures !r.success && r.WellFormed() && r.item.None? && r.status.None? && r.errors == None
    ensures Truthy(DataMessage(e)) ==> r.message == DataMessage(e)
    ensures !Truthy(DataMessage(e)) ==> r.message == Some(DeleteStatusMessage(e.status))
  {
    Failed(OrElse(DataMessage(e), DeleteStatusMessage(e.status)), None, None)
  }
  /** deletePost */
  function DeletePost(id: string, net: ApiResult<()>): (c: Call<PostInput, Envelope<()>>)
    ensures c.sent == Some(Request(Delete, PostsPath + "/" + id, None))
    ensures c.result.success <==> net.Ok?
    ensures net.Ok? ==> c.result.message == Some("Inlägg raderat framgångsrikt")
    ensures net.Fail? ==> c.result == DeleteFailureAsWritten(net.error)
  {
    Call(Some(Request(Delete, PostsPath + "/" + id, None)),
         match net
         case Ok(_) => Envelope(true, None, Some("Inlägg raderat framgångsrikt"), None, None)
         case Fail(e) => DeleteFailureAsWritten(e))
  }

  /** A post that fails validation is never sent, whatever the network would do. */
  lemma InvalidPostNeverReachesNetwork(id: string, d: PostInput, a: ApiResult<Post>, b: ApiResult<Post>)
    ensures !ValidatePostData(d).isValid ==>
      CreatePost(d, a) == CreatePost(d, b) && CreatePost(d, a).sent.None? &&
      UpdatePost(id, d, a) == UpdatePost(id, d, b) && UpdatePost(id, d, a).sent.None?
  {
  }

  /** getRoleDisplayName of the post service: `designer` is shown in the
      plural, and `admin`, which has no entry, is returned as it is. */
  function RoleDisplayName(role: string): (r: string)
    ensures role == "designer" ==> r == "Designers"
    ensures role == "developer" ==> r == "Utvecklare"
    ensures role == "tester" ==> r == "Testare"
    ensures role !in Roles.NonAdmin ==> r == role
  {
    match role
    case "designer" => "Designers"
    case "developer" => "Utvecklare"
    case "tester" => "Testare"
    case _ => role
  }
}
