/**
 * The identity-provider client: request headers, the requests the GET and
 * POST helpers hand to the HTTP layer, how they classify a response, the
 * admin token lookup, and reading the bearer token of an incoming request.
 * The HTTP exchange itself is not modelled: a response is a parameter.
 */
module Idp {
  import opened Wrappers
  import opened Text
  import opened JsonData

  /** `IDPCommunicator.get_headers(auth_token)`. */
  function Headers(authToken: Json): (h: map<string, string>)
    ensures "Content-Type" in h && h["Content-Type"] == "application/json"
    ensures "Authorization" in h <==> Truthy(authToken)
    ensures "Authorization" in h ==> h["Authorization"] == "Bearer " + PyStr(authToken)
    ensures h.Keys <= {"Content-Type", "Authorization"}
  {
    var h := map["Content-Type" := "application/json"];
    if Truthy(authToken) then h["Authorization" := "Bearer " + PyStr(authToken)] else h
  }

  /** What `make_http_request` is asked to send. */
  datatype Request = Request(url: string, verb: string, data: Option<Json>, params: Json, headers: map<string, string>)

  /** `None` arguments become empty dicts. */
  function OrEmpty(j: Option<Json>): Json
  {
    if j.Some? && j.value != JNull then j.value else JObject(map[])
  }

  /** `IDPCommunicator.get(url_path, auth_token, params)`. */
  function GetRequest(host: string, urlPath: string, authToken: Json, params: Option<Json>): (r: Request)
    ensures r.url == host + urlPath && r.verb == "GET" && r.data.None?
    ensures r.params == OrEmpty(params) && r.headers == Headers(authToken)
  {
    Request(host + urlPath, "GET", None, OrEmpty(params), Headers(authToken))
  }

  /** `IDPCommunicator.post(url_path, data, auth_token, params)`. */
  function PostRequest(host: string, urlPath: string, data: Option<Json>, authToken: Json, params: Option<Json>): (r: Request)
    ensures r.url == host + urlPath && r.verb == "POST" && r.data == Some(OrEmpty(data))
    ensures r.params == OrEmpty(params) && r.headers == Headers(authToken)
  {
    Request(host + urlPath, "POST", Some(OrEmpty(data)), OrEmpty(params), Headers(authToken))
  }

  /** `idp_post_request`: its `params` argument is not passed on, so the request carries none. */
  function IdpPostRequestSent(host: string, urlPath: string, data: Option<Json>, authToken: Json, params: Option<Json>): (r: Request)
    ensures r.params == JObject(map[])
    ensures r.url == host + urlPath && r.data == Some(OrEmpty(data)) && r.headers == Headers(authToken)
  {
    PostRequest(host, urlPath, data, authToken, None)
  }

  /** `idp_get_request` passes its `params` on. */
  function IdpGetRequestSent(host: string, urlPath: string, authToken: Json, params: Option<Json>): (r: Request)
    ensures r.params == OrEmpty(params)
  {
    GetRequest(host, urlPath, authToken, params)
  }

  /** `response.get(key)`. */
  function Get(response: map<string, Json>, key: string): Json
  {
    if key in response then response[key] else JNull
  }

  /**
   * The `(success, data)` pair of `idp_post_request` / `idp_get_request`:
   * `(True, response["data"])` on status 200, otherwise `(False, response)`.
   * A 200 response without `"data"` raises `KeyError` (`None` here).
   */
  function Classify(response: map<string, Json>): (r: Option<(bool, Json)>)
    ensures r.None? <==> PyEq(Get(response, "status_code"), JInt(200)) && "data" !in response
    ensures r.Some? ==> (r.value.0 <==> PyEq(Get(response, "status_code"), JInt(200)))
    ensures r.Some? && r.value.0 ==> r.value.1 == response["data"]
    ensures r.Some? && !r.value.0 ==> r.value.1 == JObject(response)
  {
    if PyEq(Get(response, "status_code"), JInt(200)) then
      if "data" in response then Some((true, response["data"])) else None
    else Some((false, JObject(response)))
  }

  /** How `idp_admin_auth_token` ends. */
  datatype TokenOutcome =
    | Token(token: Json)
    | AuthFailed(field: Json)  // ValidationError({field: "IDP Authentication failed!"})
    | AssertionFailed  // `assert field` with a falsy field
    | Crashed  // a `KeyError` or `TypeError` looking up the data

  /** `data["accessToken"]`: only a dict holding the key yields a value. */
  function AccessToken(data: Json): Option<Json>
  {
    if data.JObject? && "accessToken" in data.fields then Some(data.fields["accessToken"]) else None
  }

  /** `idp_admin_auth_token(raise_drf_error, field)` given the authentication response. */
  function AdminAuthToken(raiseDrfError: bool, field: Json, response: map<string, Json>): (r: TokenOutcome)
    ensures r.AuthFailed? ==> r.field == field && Truthy(field)
    ensures r.AuthFailed? || r.AssertionFailed? <==>
      raiseDrfError && Classify(response).Some? && !Classify(response).value.0
    ensures r.Token? ==> Classify(response).Some? && AccessToken(Classify(response).value.1) == Some(r.token)
  {
    match Classify(response)
    case None => Crashed
    case Some((success, data)) =>
      if !success && raiseDrfError then
        if Truthy(field) then AuthFailed(field) else AssertionFailed
      else
        match AccessToken(data)
        case Some(token) => Token(token)
        case None => Crashed
  }

  /**
   * `get_auth_token(request)`: the second of exactly two whitespace-separated
   * parts of the `Authorization` header; `None` otherwise.
   */
  function AuthToken(header: string): (r: Option<string>)
    ensures r.Some? <==> |Words(header)| == 2
    ensures r.Some? ==> r.value == Words(header)[1] && r.value != [] && NoSpace(r.value)
  {
    var parts := Words(header);
    if |parts| != 2 then None else Some(parts[1])
  }

  /** The header the client sends is read back to the same token. */
  lemma {:induction false} AuthTokenRoundTrip(token: string)
    requires token != [] && NoSpace(token)
    ensures "Authorization" in Headers(JStr(token))
    ensures AuthToken(Headers(JStr(token))["Authorization"]) == Some(token)
  {
    assert NoSpace("Bearer") by {
      assert forall i :: 0 <= i < 6 ==> !IsSpace("Bearer"[i]);
    }
    assert "Bearer " + token == "Bearer" + " " + token;
    WordsOfPair("Bearer", token);
  }

  /** A header of one word (a scheme and no token) yields no token. */
  lemma {:induction false} SingleWordHeader(scheme: string)
    requires scheme != [] && NoSpace(scheme)
    ensures AuthToken(scheme) == None
  {
    RunOfWord(scheme, []);
    assert scheme + [] == scheme;
    assert scheme[|scheme|..] == [];
    assert Words(scheme) == [scheme] + Words([]);
  }
}
