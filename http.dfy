/**
 * The shapes the HTTP layer and the domain services exchange: the endpoint
 * table, a request, the error objects a failed call rejects with, and the
 * uniform `{success, …, message, errors, status}` envelope the services
 * return instead of raising.
 */
module Http {
  import opened Js

  // Endpoint table (API_ENDPOINTS).
  const LoginPath: string := "/users/login"
  const UsersPath: string := "/users"
  const ProjectsPath: string := "/projects"
  const ChecklistsPath: string := "/checklists"
  const PostsPath: string := "/posts"
  const ProgressPath: string := "/progress"

  datatype Verb = Get | Post | Put | Patch | Delete

  /** A request the HTTP client is asked to send, with its JSON body. */
  datatype Request<P> = Request(verb: Verb, path: string, payload: Option<P>)

  /** A field -> message map, as in `errors.name = '…'`. */
  type FieldErrors = map<string, string>

  /** A response body, reduced to the two properties the front end reads. */
  datatype Body = Body(message: Option<string>, errors: Option<FieldErrors>)

  /** An axios-style `error.response`. */
  datatype RawResponse = RawResponse(status: int, data: Option<Body>)

  /**
   * A thrown or rejected JavaScript value, seen through the properties the
   * catch blocks test. The response interceptor builds these with exactly
   * one flag set; any other thrown object (a TypeError, say) has a message
   * and no flag.
   */
  datatype JsError = JsError(
    message: Option<string>,
    status: Option<int>,
    data: Option<Body>,
    response: Option<RawResponse>,
    isApiError: bool,
    isNetworkError: bool,
    isUnknownError: bool)

  /** The outcome of one awaited API call: the response data, or the
      value the promise rejected with. */
  datatype ApiResult<T> = Ok(value: T) | Fail(error: JsError)

  /** `error.data?.message`. */
  function DataMessage(e: JsError): Option<string> {
    if e.data.Some? then e.data.value.message else None
  }

  /** `error.data?.errors || {}` (an object, even an empty one, is truthy). */
  function DataErrors(e: JsError): FieldErrors {
    if e.data.Some? && e.data.value.errors.Some? then e.data.value.errors.value else map[]
  }

  /** `error.response?.data?.message`. */
  function ResponseMessage(e: JsError): Option<string> {
    if e.response.Some? && e.response.value.data.Some? then e.response.value.data.value.message
    else None
  }

  /** `error.response?.data?.errors || {}`. */
  function ResponseErrors(e: JsError): FieldErrors {
    if e.response.Some? && e.response.value.data.Some? && e.response.value.data.value.errors.Some?
    then e.response.value.data.value.errors.value
    else map[]
  }

  /**
   * The uniform result of a service method. `item` is the payload the
   * caller reads (`project`, `user`, `post`, `posts`, `checklist`, …);
   * absent properties are None.
   */
  datatype Envelope<T> = Envelope(
    success: bool,
    item: Option<T>,
    message: Option<string>,
    errors: Option<FieldErrors>,
    status: Option<int>)
  {
    /** A successful envelope carries its payload. */
    predicate WellFormed() {
      success ==> item.Some?
    }
  }

  function Succeeded<T>(item: T, message: Option<string>): (r: Envelope<T>)
    ensures r.success && r.WellFormed()
  {
    Envelope(true, Some(item), message, None, None)
  }

  function Failed<T>(message: string, errors: Option<FieldErrors>, status: Option<int>): (r: Envelope<T>)
    ensures !r.success && r.WellFormed() && r.message == Some(message)
    ensures r.item.None? && r.errors == errors && r.status == status
  {
    Envelope(false, None, Some(message), errors, status)
  }

  /** The message of every envelope produced by client-side validation. */
  const ValidationFailed: string := "Valideringsfel"

  /** `{isValid: Object.keys(errors).length === 0, errors}`. */
  datatype Validation = Validation(isValid: bool, errors: FieldErrors)

  function Validated(errors: FieldErrors): (v: Validation)
    ensures v.isValid <==> v.errors == map[]
    ensures v.errors == errors
  {
    Validation(|errors| == 0, errors)
  }

  /** Three single-key maps with distinct keys combine without overlap. */
  lemma DisjointUnion(a: FieldErrors, b: FieldErrors, c: FieldErrors, ka: string, kb: string, kc: string)
    requires a.Keys <= {ka} && b.Keys <= {kb} && c.Keys <= {kc}
    requires ka != kb && kb != kc && ka != kc
    ensures (a + b + c).Keys <= {ka, kb, kc}
    ensures (ka in a + b + c <==> ka in a) && (ka in a ==> (a + b + c)[ka] == a[ka])
    ensures (kb in a + b + c <==> kb in b) && (kb in b ==> (a + b + c)[kb] == b[kb])
    ensures (kc in a + b + c <==> kc in c) && (kc in c ==> (a + b + c)[kc] == c[kc])
    ensures a + b + c == map[] <==> a == map[] && b == map[] && c == map[]
  {
    if a + b + c == map[] {
      assert a.Keys == {} && b.Keys == {} && c.Keys == {} by {
        assert forall k :: k in a || k in b || k in c ==> k in a + b + c;
      }
    }
  }

  /** Two single-key maps with distinct keys combine without overlap. */
  lemma DisjointPair(a: FieldErrors, b: FieldErrors, ka: string, kb: string)
    requires a.Keys <= {ka} && b.Keys <= {kb} && ka != kb
    ensures (a + b).Keys <= {ka, kb}
    ensures (ka in a + b <==> ka in a) && (ka in a ==> (a + b)[ka] == a[ka])
    ensures (kb in a + b <==> kb in b) && (kb in b ==> (a + b)[kb] == b[kb])
    ensures a + b == map[] <==> a == map[] && b == map[]
  {
    if a + b == map[] {
      assert a.Keys == {} && b.Keys == {} by {
        assert forall k :: k in a || k in b ==> k in a + b;
      }
    }
  }

  /** `{success: false, message: 'Valideringsfel', errors}`. */
  function Rejected<T>(v: Validation): (r: Envelope<T>)
    ensures !r.success && r.WellFormed()
    ensures r.message == Some(ValidationFailed) && r.errors == Some(v.errors)
  {
    Envelope(false, None, Some(ValidationFailed), Some(v.errors), None)
  }

  /**
   * One call of a service method: the request it sent, if any, and the
   * envelope it returned. A method that sends no request cannot have
   * depended on the network.
   */
  datatype Call<P, E> = Call(sent: Option<Request<P>>, result: E)

  /** What an awaited service call gave a store action: the value it
      returned, or an exception it threw. */
  datatype Outcome<T> = Returned(value: T) | Threw
}
