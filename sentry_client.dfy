/**
 * The upstream client of src/sentry_client.rs with the HTTP transport taken
 * out: each `list_*` call is modelled as the decision it makes on the response
 * it received (transport failure, or a status and the outcome of decoding the
 * body), followed by an order-preserving projection of the decoded records.
 */
module Client {
  import opened Results
  import opened Text

  /** `SentryError`: the four error kinds; nothing in the client ever produces `ResponseError`. */
  datatype SentryError =
    | StatusCodeNotSuccessful(code: int)
    | RequestError(message: string)
    | ResponseError(message: string)
    | JsonParsingError(message: string)

  /** HTTP status codes, which the HTTP library keeps within 100 ..= 999. */
  type StatusCode = c: int | 100 <= c <= 999 witness 200

  const NOT_FOUND: StatusCode := 404

  predicate IsSuccess(status: StatusCode) {
    200 <= status <= 299
  }

  /** What decoding a response body as a JSON array of `T` gave. */
  datatype Body<T> = Decoded(records: seq<T>) | Undecodable(message: string)

  /** What a GET brought back: no response at all, or a status and a body. */
  datatype Response<T> = TransportFailure(message: string) | Received(status: StatusCode, body: Body<T>)

  /** The records the upstream returns, keeping only the fields that are read. */
  datatype ListOrganizationResponse = ListOrganizationResponse(slug: string)
  datatype ListProjectResponse = ListProjectResponse(slug: string, organization: ListOrganizationResponse)
  datatype ListProjectClientKeysResponse = ListProjectClientKeysResponse(public: string)

  /** A header value and whether it is marked sensitive. */
  datatype HeaderValue = HeaderValue(value: string, sensitive: bool)

  /** The client: the upstream base URL and the headers sent with every request. */
  datatype SentryClient = SentryClient(upstreamUrl: string, defaultHeaders: map<string, HeaderValue>)

  const AUTHORIZATION := "authorization"

  /** `Default`: the compose-internal upstream, no headers. */
  function Default(): (client: SentryClient)
    ensures AUTHORIZATION !in client.defaultHeaders
  {
    SentryClient("http://web:9000", map[])
  }

  /** The characters `HeaderValue::from_str` accepts: tab, and everything from space up except DEL. */
  predicate ValidHeaderValue(s: string) {
    forall i :: 0 <= i < |s| ==> s[i] == '\t' || (s[i] as int >= 32 && s[i] as int != 127)
  }

  /**
   * `new`: installs `Authorization: Bearer <token>`, marked sensitive, exactly
   * when the token is non-empty. A token that is not a valid header value makes
   * the `unwrap` panic; that is the `None` result.
   */
  method New(upstreamUrl: string, authToken: string) returns (client: Option<SentryClient>)
    ensures client.None? <==> authToken != "" && !ValidHeaderValue("Bearer " + authToken)
    ensures client.Some? ==> client.value.upstreamUrl == upstreamUrl
    ensures client.Some? ==> (AUTHORIZATION in client.value.defaultHeaders <==> authToken != "")
    ensures client.Some? ==> client.value.defaultHeaders.Keys <= {AUTHORIZATION}
    ensures client.Some? && authToken != "" ==>
      client.value.defaultHeaders[AUTHORIZATION] == HeaderValue("Bearer " + authToken, true)
  {
    var headers: map<string, HeaderValue> := map[];
    if authToken != "" {
      var bearer := "Bearer " + authToken;
      if !ValidHeaderValue(bearer) {
        return None;
      }
      var authValue := HeaderValue(bearer, false);
      authValue := authValue.(sensitive := true);
      headers := headers[AUTHORIZATION := authValue];
    }
    return Some(SentryClient(upstreamUrl, headers));
  }

  // ----- Request URLs -----

  /** The project listing: `<upstream>/api/0/projects/`. */
  function ProjectsUrl(upstreamUrl: string): string {
    upstreamUrl + "/api/0/projects/"
  }

  /** The key listing of one project: `<upstream>/api/0/projects/<org>/<project>/keys/`. */
  function KeysUrl(upstreamUrl: string, organizationId: string, projectId: string): string {
    upstreamUrl + "/api/0/projects/" + organizationId + "/" + projectId + "/keys/"
  }

  /** Reads the organization and the project back out of a key-listing URL. */
  function ParseKeysUrl(upstreamUrl: string, url: string): Option<(string, string)> {
    var prefix := ProjectsUrl(upstreamUrl);
    if !StartsWith(url, prefix) then None
    else match SplitAtFirst(url[|prefix|..], '/')
      case None => None
      case Some((organizationId, rest)) =>
        match SplitAtFirst(rest, '/')
        case None => None
        case Some((projectId, tail)) => if tail == "keys/" then Some((organizationId, projectId)) else None
  }

  /**
   * Round trip: for slugs without `/`, the key-listing URL names its project,
   * so different projects are asked for at different URLs.
   */
  lemma ParseKeysUrlOfKeysUrl(upstreamUrl: string, organizationId: string, projectId: string)
    requires '/' !in organizationId && '/' !in projectId
    ensures ParseKeysUrl(upstreamUrl, KeysUrl(upstreamUrl, organizationId, projectId)) == Some((organizationId, projectId))
  {
    var prefix := ProjectsUrl(upstreamUrl);
    var url := KeysUrl(upstreamUrl, organizationId, projectId);
    var rest := projectId + ['/'] + "keys/";
    var afterPrefix := organizationId + ['/'] + rest;
    assert url == prefix + afterPrefix;
    assert StartsWith(url, prefix) && url[|prefix|..] == afterPrefix by {
      assert url[..|prefix|] == prefix;
    }
    assert SplitAtFirst(afterPrefix, '/') == Some((organizationId, rest)) by {
      SplitAtFirstOf(organizationId, rest, '/');
    }
    assert SplitAtFirst(rest, '/') == Some((projectId, "keys/")) by {
      SplitAtFirstOf(projectId, "keys/", '/');
    }
  }

  /** Distinct projects (with slugs free of `/`) are fetched from distinct URLs. */
  lemma KeysUrlInjective(upstreamUrl: string, org1: string, project1: string, org2: string, project2: string)
    requires '/' !in org1 && '/' !in project1 && '/' !in org2 && '/' !in project2
    requires KeysUrl(upstreamUrl, org1, project1) == KeysUrl(upstreamUrl, org2, project2)
    ensures org1 == org2 && project1 == project2
  {
    ParseKeysUrlOfKeysUrl(upstreamUrl, org1, project1);
    ParseKeysUrlOfKeysUrl(upstreamUrl, org2, project2);
  }

  // ----- Classification of responses -----

  /**
   * The error a response justifies: a transport failure is a `RequestError`, an
   * undecodable success body a `JsonParsingError`, any other status a
   * `StatusCodeNotSuccessful` carrying it; `ResponseError` is never justified.
   */
  predicate Explains<T>(response: Response<T>, error: SentryError) {
    match error
    case RequestError(m) => response == TransportFailure(m)
    case JsonParsingError(m) => response.Received? && IsSuccess(response.status) && response.body == Undecodable(m)
    case StatusCodeNotSuccessful(c) => response.Received? && !IsSuccess(response.status) && c == response.status
    case ResponseError(_) => false
  }

  /** The response is a success whose body decoded. */
  predicate Usable<T>(response: Response<T>) {
    response.Received? && IsSuccess(response.status) && response.body.Decoded?
  }

  /** `list_organization`: the organization slugs, in the order received. */
  function ListOrganization(response: Response<ListOrganizationResponse>): (r: Result<seq<string>, SentryError>)
    ensures r.Ok? <==> Usable(response)
    ensures r.Ok? ==> |r.value| == |response.body.records|
    ensures r.Ok? ==> forall i :: 0 <= i < |r.value| ==> r.value[i] == response.body.records[i].slug
    ensures r.Err? ==> Explains(response, r.error)
  {
    match response
    case Received(status, body) =>
      if IsSuccess(status) then
        match body
        case Decoded(organizations) => Ok(seq(|organizations|, i requires 0 <= i < |organizations| => organizations[i].slug))
        case Undecodable(message) => Err(JsonParsingError(message))
      else Err(StatusCodeNotSuccessful(status))
    case TransportFailure(message) => Err(RequestError(message))
  }

  /** `list_projects`: one (organization slug, project slug) pair per record, in the order received. */
  function ListProjects(response: Response<ListProjectResponse>): (r: Result<seq<(string, string)>, SentryError>)
    ensures r.Ok? <==> Usable(response)
    ensures r.Ok? ==> |r.value| == |response.body.records|
    ensures r.Ok? ==> forall i :: 0 <= i < |r.value| ==>
      r.value[i] == (response.body.records[i].organization.slug, response.body.records[i].slug)
    ensures r.Err? ==> Explains(response, r.error)
  {
    match response
    case Received(status, body) =>
      if IsSuccess(status) then
        match body
        case Decoded(projects) =>
          Ok(seq(|projects|, i requires 0 <= i < |projects| => (projects[i].organization.slug, projects[i].slug)))
        case Undecodable(message) => Err(JsonParsingError(message))
      else Err(StatusCodeNotSuccessful(status))
    case TransportFailure(message) => Err(RequestError(message))
  }

  /** `list_projects_by_organization_id`: the project slugs, in the order received. */
  function ListProjectsByOrganizationId(response: Response<ListProjectResponse>): (r: Result<seq<string>, SentryError>)
    ensures r.Ok? <==> Usable(response)
    ensures r.Ok? ==> |r.value| == |response.body.records|
    ensures r.Ok? ==> forall i :: 0 <= i < |r.value| ==> r.value[i] == response.body.records[i].slug
    ensures r.Err? ==> Explains(response, r.error)
  {
    match response
    case Received(status, body) =>
      if IsSuccess(status) then
        match body
        case Decoded(projects) => Ok(seq(|projects|, i requires 0 <= i < |projects| => projects[i].slug))
        case Undecodable(message) => Err(JsonParsingError(message))
      else Err(StatusCodeNotSuccessful(status))
    case TransportFailure(message) => Err(RequestError(message))
  }

  /**
   * `list_project_client_keys`: the public keys, in the order received; a 404
   * means the project has no keys and is not an error.
   */
  function ListProjectClientKeys(response: Response<ListProjectClientKeysResponse>): (r: Result<seq<string>, SentryError>)
    ensures r.Ok? <==> Usable(response) || (response.Received? && response.status == NOT_FOUND)
    ensures Usable(response) ==> r.Ok? && |r.value| == |response.body.records|
    ensures Usable(response) ==> forall i :: 0 <= i < |r.value| ==> r.value[i] == response.body.records[i].public
    ensures response.Received? && response.status == NOT_FOUND ==> r == Ok([])
    ensures r.Err? ==> Explains(response, r.error) && !(response.Received? && response.status == NOT_FOUND)
  {
    match response
    case Received(status, body) =>
      if IsSuccess(status) then
        match body
        case Decoded(keys) => Ok(seq(|keys|, i requires 0 <= i < |keys| => keys[i].public))
        case Undecodable(message) => Err(JsonParsingError(message))
      else if status == NOT_FOUND then Ok([])
      else Err(StatusCodeNotSuccessful(status))
    case TransportFailure(message) => Err(RequestError(message))
  }

  /**
   * The two listings the resolver uses agree on every response except a 404:
   * there the key listing answers "no keys" while the project listing fails
   * with the status.
   */
  lemma ListingsDifferOnlyOnNotFound(projects: Response<ListProjectResponse>, keys: Response<ListProjectClientKeysResponse>)
    requires projects.TransportFailure? <==> keys.TransportFailure?
    requires projects.TransportFailure? ==> projects.message == keys.message
    requires projects.Received? ==> projects.status == keys.status
    requires projects.Received? ==> (projects.body.Decoded? <==> keys.body.Decoded?)
    requires projects.Received? && projects.body.Undecodable? ==> projects.body.message == keys.body.message
    ensures projects.Received? && projects.status == NOT_FOUND ==>
      ListProjects(projects) == Err(StatusCodeNotSuccessful(404)) && ListProjectClientKeys(keys) == Ok([])
    ensures !(projects.Received? && projects.status == NOT_FOUND) ==>
      (ListProjects(projects).Ok? <==> ListProjectClientKeys(keys).Ok?)
      && (ListProjects(projects).Err? ==> ListProjects(projects).error == ListProjectClientKeys(keys).error)
  {
  }

  /** No listing ever fails with `ResponseError`. */
  lemma NeverResponseError(
    organizations: Response<ListOrganizationResponse>,
    projects: Response<ListProjectResponse>,
    keys: Response<ListProjectClientKeysResponse>)
    ensures ListOrganization(organizations).Err? ==> !ListOrganization(organizations).error.ResponseError?
    ensures ListProjects(projects).Err? ==> !ListProjects(projects).error.ResponseError?
    ensures ListProjectsByOrganizationId(projects).Err? ==> !ListProjectsByOrganizationId(projects).error.ResponseError?
    ensures ListProjectClientKeys(keys).Err? ==> !ListProjectClientKeys(keys).error.ResponseError?
  {
  }
}
