/**
 * The client's request wrapper: it adds the bearer token and the JSON content
 * type to every request, turns a 401 into a logout, and turns any other failed
 * response into an error carrying the server's `detail`. The stored token is
 * the one piece of state; `fetch` becomes the request it would send, and the
 * response it would receive is a parameter.
 */
module Api {
  import opened Common

  // ---------------------------------------------------------------------------
  // Headers

  /** A header object, as (name, value) pairs in insertion order. */
  type Headers = seq<(string, string)>

  /** `headers[name]`: the value under a name, if present. */
  function Lookup(h: Headers, name: string): (r: Option<string>)
    ensures r.Some? <==> exists i :: 0 <= i < |h| && h[i].0 == name
  {
    if h == [] then None
    else if h[0].0 == name then Some(h[0].1)
    else
      var rest := Lookup(h[1..], name);
      assert forall i :: 1 <= i < |h| ==> h[1..][i - 1] == h[i];
      rest
  }

  /** `headers[name] = value`: an existing entry is overwritten in place, a new one is added at the end. */
  function SetHeader(h: Headers, name: string, value: string): (r: Headers)
    ensures Lookup(r, name) == Some(value)
    ensures forall other :: other != name ==> Lookup(r, other) == Lookup(h, other)
    ensures |r| == |h| || |r| == |h| + 1
  {
    if h == [] then [(name, value)]
    else if h[0].0 == name then [(name, value)] + h[1..]
    else [h[0]] + SetHeader(h[1..], name, value)
  }

  /** A request body: none, a JSON document, a `FormData`, or a URL-encoded form. */
  datatype Body = NoBody | JsonBody(doc: Json) | FormBody(fields: seq<(string, string)>) | UrlEncoded(fields: seq<(string, string)>)

  /** The headers `request` sends: the caller's, then the token, then the JSON content type. */
  function RequestHeaders(caller: Headers, token: Option<string>, body: Body): Headers
  {
    var h := if Truthy(token) then SetHeader(caller, "Authorization", "Bearer " + token.value) else caller;
    if !body.FormBody? then SetHeader(h, "Content-Type", "application/json") else h
  }

  /**
   * Authorization is "Bearer <token>" exactly when a non-empty token is
   * stored, Content-Type is JSON exactly when the body is not a form, and
   * every other header of the caller is passed on as given.
   */
  lemma HeaderRules(caller: Headers, token: Option<string>, body: Body)
    ensures var h := RequestHeaders(caller, token, body);
      && Lookup(h, "Authorization") == (if Truthy(token) then Some("Bearer " + token.value) else Lookup(caller, "Authorization"))
      && Lookup(h, "Content-Type") == (if body.FormBody? then Lookup(caller, "Content-Type") else Some("application/json"))
      && forall other :: other != "Authorization" && other != "Content-Type" ==> Lookup(h, other) == Lookup(caller, other)
  {
    var step := if Truthy(token) then SetHeader(caller, "Authorization", "Bearer " + token.value) else caller;
    assert "Authorization" != "Content-Type";
    assert Lookup(step, "Content-Type") == Lookup(caller, "Content-Type");
  }

  /** The header construction of `request`, assignment by assignment. */
  method BuildHeaders(caller: Headers, token: Option<string>, body: Body) returns (headers: Headers)
    ensures headers == RequestHeaders(caller, token, body)
  {
    headers := caller;
    if token.Some? && token.value != "" {
      headers := SetHeader(headers, "Authorization", "Bearer " + token.value);
    }
    if !body.FormBody? {
      headers := SetHeader(headers, "Content-Type", "application/json");
    }
  }

  // ---------------------------------------------------------------------------
  // Responses

  /** A response: its status and its body, `None` when the body is not JSON. */
  datatype Response = Response(status: int, body: Option<Json>)

  predicate IsOk(r: Response)
  {
    200 <= r.status <= 299
  }

  /**
   * The message of a thrown `Error`: a text, or the JavaScript string
   * conversion of a non-string `detail`, which the model leaves symbolic.
   */
  datatype Message = Text(s: string) | Converted(value: Json)

  /** What a call resolves to: the parsed body, a thrown error, or a failed parse of a successful response. */
  datatype Outcome = Success(data: Json) | Failure(message: Message) | Unparsable

  /** A JSON value JavaScript treats as false. */
  predicate Falsy(j: Json)
  {
    j == JNull || j == JBool(false) || j == JNum(0.0) || j == JStr("")
  }

  /** The text of a string `detail`, or "" for any other. */
  function DetailText(j: Json): string
  {
    match Field(j, "detail")
    case Some(JStr(s)) => s
    case _ => ""
  }

  /** `err.detail || 'Request failed'`, where an unparsable body counts as `{detail: 'Request failed'}`. */
  function DetailMessage(body: Option<Json>): (m: Message)
    ensures body.None? ==> m == Text("Request failed")
    ensures body.Some? && Field(body.value, "detail") == Some(JStr(DetailText(body.value))) && DetailText(body.value) != ""
      ==> m == Text(DetailText(body.value))
    ensures body.Some? && (Field(body.value, "detail").None? || Falsy(Field(body.value, "detail").value))
      ==> m == Text("Request failed")
  {
    if body.None? then Text("Request failed")
    else
      match Field(body.value, "detail")
      case None => Text("Request failed")
      case Some(d) =>
        if Falsy(d) then Text("Request failed")
        else if d.JStr? then Text(d.s)
        else Converted(d)
  }

  /**
   * JavaScript `String(v)` for a JSON value, as `localStorage.setItem` stores
   * it; `None` for an array or for a number that is not a whole number of
   * magnitude below 10^21, whose renderings the model leaves out.
   */
  function JsString(j: Json): (r: Option<string>)
    ensures j.JStr? ==> r == Some(j.s)
    ensures j.JObj? ==> r == Some("[object Object]")
    ensures j.JNum? && j.n == j.n.Floor as real && -1000000000000000000000.0 < j.n < 1000000000000000000000.0
      ==> r == Some(IntToString(j.n.Floor))
  {
    match j
    case JNull => Some("null")
    case JBool(b) => Some(if b then "true" else "false")
    case JNum(n) =>
      if n == n.Floor as real && -1000000000000000000000.0 < n < 1000000000000000000000.0
      then Some(IntToString(n.Floor)) else None
    case JStr(s) => Some(s)
    case JArr(_) => None
    case JObj(_) => Some("[object Object]")
  }

  /**
   * The text `localStorage.setItem('cc_token', data.access_token)` stores for
   * a non-null body: the field converted to a string, "undefined" when the
   * body has no such field or is not an object.
   */
  function StoredToken(data: Json): (r: Option<string>)
    ensures Field(data, "access_token").None? ==> r == Some("undefined")
    ensures Field(data, "access_token").Some? && Field(data, "access_token").value.JStr?
      ==> r == Some(Field(data, "access_token").value.s)
    ensures Field(data, "access_token") == Some(JNull) ==> r == Some("null")
  {
    match Field(data, "access_token")
    case None => Some("undefined")
    case Some(v) => JsString(v)
  }

  /** The `TypeError` V8 throws for `data.access_token` when the body is JSON `null`. */
  const NullTokenRead := "Cannot read properties of null (reading 'access_token')"

  /** How `request` settles for a response. */
  function Classify(r: Response): (o: Outcome)
    ensures r.status == 401 ==> o == Failure(Text("Unauthorized"))
    ensures r.status != 401 && !IsOk(r) ==> o == Failure(DetailMessage(r.body))
    ensures IsOk(r) ==> (o.Success? <==> r.body.Some?) && (o.Success? ==> o.data == r.body.value)
    ensures IsOk(r) && r.body.None? ==> o == Unparsable
  {
    if r.status == 401 then Failure(Text("Unauthorized"))
    else if !IsOk(r) then Failure(DetailMessage(r.body))
    else if r.body.None? then Unparsable
    else Success(r.body.value)
  }

  /** A failed response never resolves, and a readable successful one always does. */
  lemma ClassifyCases(r: Response)
    ensures Classify(r).Success? <==> IsOk(r) && r.body.Some?
    ensures Classify(r).Failure? <==> !IsOk(r)
  {
  }

  /** A FastAPI `HTTPException` reaches the caller as its own detail text. */
  lemma HttpErrorBecomesMessage(e: HttpError)
    requires e.code != 401 && !(200 <= e.code <= 299) && e.detail != ""
    ensures Classify(Response(e.code, Some(JObj([("detail", JStr(e.detail))])))) == Failure(Text(e.detail))
  {
    assert Field(JObj([("detail", JStr(e.detail))]), "detail") == Some(JStr(e.detail));
  }

  // ---------------------------------------------------------------------------
  // Endpoints

  /** A request as `fetch` receives it. */
  datatype Sent = Sent(path: string, httpMethod: string, headers: Headers, body: Body)

  /** The calls the client makes. */
  datatype Endpoint =
    | Register(email: string, password: string, name: string)
    | GetMe
    | UploadProduct(name: string, fileName: string)
    | GetProducts
    | GetProduct(productId: int)
    | DeleteProduct(productId: int)
    | GetPersonalities
    | CreateSession(productId: int, personalityType: string)
    | UpdateCallId(sessionId: int, vapiCallId: string)
    | GetSessions
    | GetSession(sessionId: int)
    | GetDashboard

  /** The path, the method and the body each endpoint calls `request` with. */
  datatype Call = Call(path: string, httpMethod: string, body: Body)

  function CallOf(e: Endpoint): Call
  {
    match e
    case Register(email, password, name) =>
      Call("/auth/register", "POST",
        JsonBody(JObj([("email", JStr(email)), ("password", JStr(password)), ("name", JStr(name))])))
    case GetMe => Call("/auth/me", "GET", NoBody)
    case UploadProduct(name, fileName) =>
      Call("/products/upload", "POST", FormBody([("name", name), ("file", fileName)]))
    case GetProducts => Call("/products/", "GET", NoBody)
    case GetProduct(id) => Call("/products/" + IntToString(id), "GET", NoBody)
    case DeleteProduct(id) => Call("/products/" + IntToString(id), "DELETE", NoBody)
    case GetPersonalities => Call("/sessions/personalities", "GET", NoBody)
    case CreateSession(productId, pt) =>
      Call("/sessions/", "POST",
        JsonBody(JObj([("product_id", JNum(productId as real)), ("personality_type", JStr(pt))])))
    case UpdateCallId(id, callId) =>
      Call("/sessions/" + IntToString(id) + "/call-id", "PATCH", JsonBody(JObj([("vapi_call_id", JStr(callId))])))
    case GetSessions => Call("/sessions/", "GET", NoBody)
    case GetSession(id) => Call("/sessions/" + IntToString(id), "GET", NoBody)
    case GetDashboard => Call("/scores/dashboard", "GET", NoBody)
  }

  /** `updateCallId` sends a PATCH to `/sessions/<id>/call-id` whose JSON body carries only the call id. */
  lemma CallIdRequest(sessionId: nat, callId: string)
    ensures var c := CallOf(UpdateCallId(sessionId, callId));
      var n := |NatToString(sessionId)|;
      && c.httpMethod == "PATCH"
      && |c.path| == 10 + n + 8
      && c.path[..10] == "/sessions/"
      && ParseNat(c.path[10..10 + n]) == sessionId
      && c.path[10 + n..] == "/call-id"
      && c.body.JsonBody? && Field(c.body.doc, "vapi_call_id") == Some(JStr(callId))
      && |c.body.doc.fields| == 1
  {
    var c := CallOf(UpdateCallId(sessionId, callId));
    var n := |NatToString(sessionId)|;
    assert c.path[10..10 + n] == NatToString(sessionId);
    ParseNatToString(sessionId);
  }

  /** Only the upload sends a form, so every other call is sent with the JSON content type. */
  lemma OnlyUploadIsForm(e: Endpoint, caller: Headers, token: Option<string>)
    requires !e.UploadProduct?
    ensures Lookup(RequestHeaders(caller, token, CallOf(e).body), "Content-Type") == Some("application/json")
  {
    HeaderRules(caller, token, CallOf(e).body);
  }

  // ---------------------------------------------------------------------------
  // The client and its stored token

  /** The client state: the `cc_token` entry of local storage and the page it sent the browser to, if any. */
  class Client {
    var token: Option<string>
    var redirect: Option<string>

    constructor (stored: Option<string>)
      ensures token == stored && redirect.None?
    {
      token, redirect := stored, None;
    }

    /** `request(path, options)`, answered by `response`; returns what it sent and how it settled. */
    method Request(path: string, httpMethod: string, caller: Headers, body: Body, response: Response)
      returns (sent: Sent, o: Outcome)
      modifies this
      ensures sent == Sent(path, httpMethod, RequestHeaders(caller, old(token), body), body)
      ensures o == Classify(response)
      ensures response.status == 401 ==> token.None? && redirect == Some("/login")
      ensures response.status != 401 ==> token == old(token) && redirect == old(redirect)
    {
      var headers := BuildHeaders(caller, token, body);
      sent := Sent(path, httpMethod, headers, body);
      if response.status == 401 {
        token := None;
        redirect := Some("/login");
        o := Failure(Text("Unauthorized"));
        return;
      }
      if !(200 <= response.status <= 299) {
        o := Failure(DetailMessage(response.body));
        return;
      }
      o := if response.body.None? then Unparsable else Success(response.body.value);
    }

    /** An endpoint of `api`, through `request`. */
    method Send(e: Endpoint, response: Response) returns (sent: Sent, o: Outcome)
      modifies this
      ensures var c := CallOf(e);
        sent == Sent(c.path, c.httpMethod, RequestHeaders([], old(token), c.body), c.body)
      ensures o == Classify(response)
      ensures response.status == 401 ==> token.None?
      ensures response.status != 401 ==> token == old(token)
    {
      var c := CallOf(e);
      sent, o := Request(c.path, c.httpMethod, [], c.body, response);
    }

    /**
     * `login`: the credentials go out as a URL-encoded form without the
     * token; a failed response throws "Invalid credentials" and keeps the
     * stored token, a successful one stores the string form of its body's
     * `access_token` ("undefined" when missing); a body of JSON `null` throws
     * on reading the field and stores nothing.
     */
    method Login(email: string, password: string, response: Response)
      returns (sent: Sent, o: Outcome)
      modifies this
      ensures sent == Sent("/auth/login", "POST", [("Content-Type", "application/x-www-form-urlencoded")],
                           UrlEncoded([("username", email), ("password", password)]))
      ensures !IsOk(response) ==> o == Failure(Text("Invalid credentials")) && token == old(token)
      ensures IsOk(response) && response.body.None? ==> o == Unparsable && token == old(token)
      ensures IsOk(response) && response.body == Some(JNull) ==> o == Failure(Text(NullTokenRead)) && token == old(token)
      ensures IsOk(response) && response.body.Some? && response.body.value != JNull ==>
                o == Success(response.body.value)
                && (StoredToken(response.body.value).Some? ==> token == StoredToken(response.body.value))
      ensures redirect == old(redirect)
    {
      sent := Sent("/auth/login", "POST", [("Content-Type", "application/x-www-form-urlencoded")],
        UrlEncoded([("username", email), ("password", password)]));
      if !(200 <= response.status <= 299) {
        o := Failure(Text("Invalid credentials"));
        return;
      }
      if response.body.None? {
        o := Unparsable;
        return;
      }
      var data := response.body.value;
      if data == JNull {
        o := Failure(Text(NullTokenRead));
        return;
      }
      var stored := StoredToken(data);
      if stored.Some? {
        token := stored;
      }
      o := Success(data);
    }
  }

  /** After a 401 the next request goes out without an Authorization header of the client's own. */
  lemma LoggedOutSendsNoToken(caller: Headers, body: Body)
    ensures Lookup(RequestHeaders(caller, None, body), "Authorization") == Lookup(caller, "Authorization")
  {
    HeaderRules(caller, None, body);
  }
}
