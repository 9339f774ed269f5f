/** The mobile client's API layer, mobile-client/src/services/api.ts: the token and
    role it holds, the base URL the role selects, how `request` composes the URL and
    the headers, the multipart upload, and the error a non-OK response raises. `fetch`
    is external: the request the client would send is an output and the server's
    response an input. */
module Api {
  import opened Wrappers
  import opened Strings

  const Host := "http://localhost:8080"

  /** The request handed to `fetch`. */
  datatype HttpRequest = HttpRequest(url: string, httpMethod: Option<string>, headers: map<string, string>, body: Option<string>)

  /** The caller's RequestInit: method, body and extra headers. */
  datatype RequestOptions = RequestOptions(httpMethod: Option<string>, body: Option<string>, headers: map<string, string>)

  /** What the server answered: status, `ok`, and the decoded JSON body. */
  datatype HttpResponse<T> = HttpResponse(ok: bool, status: int, json: T)

  /** getBaseUrl for a role; no role, or any other role, selects the public API. */
  function BaseUrlFor(role: Option<string>): (url: string)
    ensures role == Some("user") ==> url == Host + "/user/v1"
    ensures role == Some("brand") ==> url == Host + "/brand/v1"
    ensures role != Some("user") && role != Some("brand") ==> url == Host + "/api/v1"
  {
    match role
    case Some(r) =>
      if r == "user" then Host + "/user/v1"
      else if r == "brand" then Host + "/brand/v1"
      else Host + "/api/v1"
    case None => Host + "/api/v1"
  }

  /** The URL `request` builds: public endpoints go to the bare host, all others to the
      role's base. */
  function UrlFor(role: Option<string>, endpoint: string): (url: string)
    ensures StartsWith(endpoint, "/api/v1") ==> url == Host + endpoint
    ensures !StartsWith(endpoint, "/api/v1") ==> url == BaseUrlFor(role) + endpoint
  {
    (if StartsWith(endpoint, "/api/v1") then Host else BaseUrlFor(role)) + endpoint
  }

  /** JavaScript truthiness of the optional token: set and not the empty string. */
  predicate HasToken(token: Option<string>) {
    token.Some? && token.value != ""
  }

  /** The headers `request` sends: JSON content type, then the bearer token when there is
      one, then the caller's headers, each later one overriding. */
  function HeadersFor(token: Option<string>, caller: map<string, string>): (h: map<string, string>)
    ensures forall k :: k in caller ==> k in h && h[k] == caller[k]
    ensures "Content-Type" !in caller ==> "Content-Type" in h && h["Content-Type"] == "application/json"
    ensures "Authorization" !in caller ==> ("Authorization" in h <==> HasToken(token))
    ensures "Authorization" !in caller && HasToken(token) ==> h["Authorization"] == "Bearer " + token.value
    ensures h.Keys == caller.Keys + {"Content-Type"} + (if HasToken(token) then {"Authorization"} else {})
  {
    var defaults := map["Content-Type" := "application/json"];
    var auth := if HasToken(token) then map["Authorization" := "Bearer " + token.value] else map[];
    defaults + auth + caller
  }

  /** The error message of a non-OK response. */
  function ApiError(status: int): string {
    "API Error: " + IntToString(status)
  }

  class ApiService {
    var token: Option<string>
    var userRole: Option<string>

    constructor ()
      ensures token == None && userRole == None
    {
      token := None;
      userRole := None;
    }

    method SetToken(t: string)
      modifies this
      ensures token == Some(t) && userRole == old(userRole)
    {
      token := Some(t);
    }

    method SetUserRole(role: string)
      modifies this
      ensures userRole == Some(role) && token == old(token)
    {
      userRole := Some(role);
    }

    /** logout: forgets the token and the role. */
    method Logout()
      modifies this
      ensures token == None && userRole == None
    {
      token := None;
      userRole := None;
    }

    /** request: the request sent for an endpoint, and the parsed body or the error of a
        non-OK response. */
    method Request<T>(endpoint: string, options: RequestOptions, response: HttpResponse<T>)
      returns (sent: HttpRequest, r: Result<T>)
      ensures sent == HttpRequest(UrlFor(userRole, endpoint), options.httpMethod, HeadersFor(token, options.headers), options.body)
      ensures response.ok ==> r == Ok(response.json)
      ensures !response.ok ==> r == Err(ApiError(response.status))
    {
      var baseUrl := if StartsWith(endpoint, "/api/v1") then Host else BaseUrlFor(userRole);
      var url := baseUrl + endpoint;
      var headers := HeadersFor(token, options.headers);
      sent := HttpRequest(url, options.httpMethod, headers, options.body);
      if !response.ok {
        return sent, Err(ApiError(response.status));
      }
      return sent, Ok(response.json);
    }

    /** uploadContent: always the role's base URL, and only an Authorization header (no
        content type, which the multipart body sets). */
    method UploadContent<T>(formData: string, response: HttpResponse<T>) returns (sent: HttpRequest, r: Result<T>)
      ensures sent.url == BaseUrlFor(userRole) + "/content" && sent.httpMethod == Some("POST") && sent.body == Some(formData)
      ensures sent.headers == if HasToken(token) then map["Authorization" := "Bearer " + token.value] else map[]
      ensures response.ok ==> r == Ok(response.json)
      ensures !response.ok ==> r == Err(ApiError(response.status))
    {
      var url := BaseUrlFor(userRole) + "/content";
      var headers: map<string, string> := map[];
      if HasToken(token) {
        headers := headers["Authorization" := "Bearer " + token.value];
      }
      sent := HttpRequest(url, Some("POST"), headers, Some(formData));
      if !response.ok {
        return sent, Err(ApiError(response.status));
      }
      return sent, Ok(response.json);
    }

    /** updateContentPermissions as written: its endpoint has no leading slash. */
    method UpdateContentPermissions<T>(id: string, permissions: string, response: HttpResponse<T>)
      returns (sent: HttpRequest, r: Result<T>)
      ensures sent.url == BaseUrlFor(userRole) + PermissionsEndpoint(id)
      ensures sent.httpMethod == Some("PUT") && sent.body == Some(permissions)
      ensures response.ok ==> r == Ok(response.json)
      ensures !response.ok ==> r == Err(ApiError(response.status))
    {
      var endpoint := PermissionsEndpoint(id);
      sent, r := Request(endpoint, RequestOptions(Some("PUT"), Some(permissions), map[]), response);
    }

    /** updateContentPermissions with the endpoint the other content routes use. */
    method UpdateContentPermissionsIntended<T>(id: string, permissions: string, response: HttpResponse<T>)
      returns (sent: HttpRequest, r: Result<T>)
      ensures sent.url == BaseUrlFor(userRole) + PermissionsEndpointIntended(id)
      ensures sent.httpMethod == Some("PUT") && sent.body == Some(permissions)
      ensures response.ok ==> r == Ok(response.json)
      ensures !response.ok ==> r == Err(ApiError(response.status))
    {
      var endpoint := PermissionsEndpointIntended(id);
      sent, r := Request(endpoint, RequestOptions(Some("PUT"), Some(permissions), map[]), response);
    }
  }

  /** The endpoint updateContentPermissions passes to `request`. */
  function PermissionsEndpoint(id: string): (e: string)
    ensures !StartsWith(e, "/api/v1")
  {
    var e := "user/v1/content/" + id + "/permissions";
    assert e[0] == 'u';
    e
  }

  /** The endpoint it evidently means, relative to the role's base like `/content`. */
  function PermissionsEndpointIntended(id: string): (e: string)
    ensures !StartsWith(e, "/api/v1")
  {
    var e := "/content/" + id + "/permissions";
    assert e[1] == 'c';
    e
  }

  /** For a user the intended endpoint gives the user API's permissions route. */
  lemma IntendedPermissionsUrl(id: string)
    ensures BaseUrlFor(Some("user")) + PermissionsEndpointIntended(id) == Host + "/user/v1/content/" + id + "/permissions"
  {
  }

  /** A public endpoint reaches the same URL whatever the role. */
  lemma PublicEndpointIgnoresRole(role1: Option<string>, role2: Option<string>, endpoint: string)
    requires StartsWith(endpoint, "/api/v1")
    ensures UrlFor(role1, endpoint) == UrlFor(role2, endpoint) == Host + endpoint
  {
  }

  /** After logout every non-public request goes to the public API and carries no
      Authorization header unless the caller supplies one. */
  lemma LoggedOutRequests(endpoint: string, caller: map<string, string>)
    requires !StartsWith(endpoint, "/api/v1") && "Authorization" !in caller
    ensures UrlFor(None, endpoint) == Host + "/api/v1" + endpoint
    ensures "Authorization" !in HeadersFor(None, caller)
  {
  }

  /** The permissions URL as written doubles the role segment for a user, so it is not
      the user API's permissions route. */
  lemma PermissionsUrlDoubled(id: string)
    ensures BaseUrlFor(Some("user")) + PermissionsEndpoint(id) == Host + "/user/v1user/v1/content/" + id + "/permissions"
    ensures BaseUrlFor(Some("user")) + PermissionsEndpoint(id) != Host + "/user/v1/content/" + id + "/permissions"
  {
    var written := BaseUrlFor(Some("user")) + PermissionsEndpoint(id);
    var intended := Host + "/user/v1/content/" + id + "/permissions";
    assert written[|Host| + 8] == 'u' && intended[|Host| + 8] == '/';
  }

  /** An error names only the status: two responses with the same status raise the same
      message, and different statuses give different messages. */
  lemma ApiErrorStatusOnly(s1: nat, s2: nat)
    ensures ApiError(s1) == ApiError(s2) <==> s1 == s2
  {
    if ApiError(s1) == ApiError(s2) {
      assert ApiError(s1)[11..] == NatToString(s1) && ApiError(s2)[11..] == NatToString(s2);
      NatToStringInjective(s1, s2);
    }
  }
}
