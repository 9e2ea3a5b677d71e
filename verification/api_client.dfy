/** The synchronous REST client of the companion agent (`AgentClient` in
    api_client.py): base URL, request construction for every endpoint, the
    `(data, error)` outcome of `_request`, the health check and the
    process-wide singleton. The HTTP transport and JSON decoding are not
    modelled: a request's fate is given as an `Exchange`. */
module ApiClient {
  import opened Options
  import Text

  /** A JSON object received from the agent; only string-valued fields are modelled. */
  type Record = map<string, string>

  /** `record.get(key, "")`. */
  function Field(r: Record, key: string): (v: string)
    ensures key in r ==> v == r[key]
    ensures key !in r ==> v == ""
  {
    if key in r then r[key] else ""
  }

  /** The pair `_request` returns: `(data, None)` or `(None, message)`. */
  datatype Reply<T> = Ok(data: Option<T>) | Err(message: string)

  /** `if err:` in a caller: an error whose text is empty is falsy in Python. */
  predicate Failed<T>(r: Reply<T>) {
    r.Err? && r.message != ""
  }

  /** The caller's `data` is truthy: no error and a non-empty list. */
  predicate NonEmptyList<T>(r: Reply<seq<T>>) {
    r.Ok? && r.data.Some? && |r.data.value| > 0
  }

  /** The caller's `data` is truthy: no error and a non-empty object. */
  predicate NonEmptyObject(r: Reply<Record>) {
    r.Ok? && r.data.Some? && |r.data.value| > 0
  }

  /** `data or []` for a list reply. */
  function Items<T>(r: Reply<seq<T>>): (items: seq<T>)
    ensures r.Ok? && r.data.Some? ==> items == r.data.value
    ensures r.Err? || r.data.None? ==> items == []
  {
    if r.Ok? && r.data.Some? then r.data.value else []
  }

  /** The agent calls the addon makes, in the order it makes them. Those
      without a request builder below (`SwitchProject` and the three
      `Active…` getters) are called by operators.py but not defined by
      api_client.py; `FetchAssets` and `FetchCheckpoints` are the fetches of
      helpers.py, whose argument lists differ from the client's methods. */
  datatype Call =
    | Health
    | ListAccounts
    | SwitchAccount(accountId: string)
    | ListStudios
    | SwitchStudio(studioId: string)
    | ListProjects
    | SwitchProject(uri: string)
    | ActiveAccount
    | ActiveStudio
    | ActiveProject
    | FetchAssets
    | FetchCheckpoints(assetId: string)

  const AgentHost: string := "http://127.0.0.1"
  const AgentPort: int := 1173

  datatype AgentClient = AgentClient(baseUrl: string)

  /** `AgentClient(host, port)`: the base URL is the host, a colon and the
      port in decimal, which reads back as the port. */
  function NewClient(host: string, port: int): (c: AgentClient)
    ensures |c.baseUrl| > |host| + 1
    ensures c.baseUrl[..|host| + 1] == host + ":"
    ensures Text.ParseInt(c.baseUrl[|host| + 1..]) == Some(port)
  {
    var c := AgentClient(host + ":" + Text.IntToString(port));
    assert c.baseUrl[|host| + 1..] == Text.IntToString(port);
    Text.IntToStringRoundTrip(port);
    c
  }

  function DefaultClient(): AgentClient {
    NewClient(AgentHost, AgentPort)
  }

  lemma DefaultBaseUrl()
    ensures DefaultClient().baseUrl == "http://127.0.0.1:1173"
  {
  }

  type Body = map<string, string>

  /** What `urllib.request.Request` is built from in `_request`. */
  datatype Request = Request(verb: string, url: string, headers: map<string, string>, data: Option<Body>)

  const JsonHeaders: map<string, string> := map["Content-Type" := "application/json"]

  /** The request of `_request(method, path, body)`: the URL is the base URL
      followed by the path, every request carries the JSON content type, and
      a body is sent only when the dictionary is non-empty. */
  function BuildRequest(c: AgentClient, verb: string, path: string, body: Option<Body>): (r: Request)
    ensures r.verb == verb && r.headers == JsonHeaders
    ensures |r.url| == |c.baseUrl| + |path| && r.url[..|c.baseUrl|] == c.baseUrl && r.url[|c.baseUrl|..] == path
    ensures r.data.Some? <==> body.Some? && |body.value| > 0
    ensures r.data.Some? ==> r.data == body
  {
    var data := if body.Some? && |body.value| > 0 then body else None;
    Request(verb, c.baseUrl + path, JsonHeaders, data)
  }

  function HealthRequest(c: AgentClient): Request { BuildRequest(c, "GET", "/health", None) }
  function ListAccountsRequest(c: AgentClient): Request { BuildRequest(c, "GET", "/accounts", None) }
  function ListStudiosRequest(c: AgentClient): Request { BuildRequest(c, "GET", "/studios", None) }
  function ListProjectsRequest(c: AgentClient): Request { BuildRequest(c, "GET", "/projects", None) }

  /** The read-only listings and the health check are body-less GETs of
      fixed paths under the base URL. */
  lemma FixedGetEndpoints(c: AgentClient)
    ensures HealthRequest(c) == Request("GET", c.baseUrl + "/health", JsonHeaders, None)
    ensures ListAccountsRequest(c) == Request("GET", c.baseUrl + "/accounts", JsonHeaders, None)
    ensures ListStudiosRequest(c) == Request("GET", c.baseUrl + "/studios", JsonHeaders, None)
    ensures ListProjectsRequest(c) == Request("GET", c.baseUrl + "/projects", JsonHeaders, None)
  {
  }

  /** `switch_account`: a POST whose body is exactly `{"id": accountId}`. */
  function SwitchAccountRequest(c: AgentClient, accountId: string): (r: Request)
    ensures r.verb == "POST" && r.url == c.baseUrl + "/accounts/switch"
    ensures r.data.Some? && r.data.value.Keys == {"id"} && r.data.value["id"] == accountId
  {
    BuildRequest(c, "POST", "/accounts/switch", Some(map["id" := accountId]))
  }

  /** `switch_studio`: a POST whose body is exactly `{"id": studioId}`. */
  function SwitchStudioRequest(c: AgentClient, studioId: string): (r: Request)
    ensures r.verb == "POST" && r.url == c.baseUrl + "/studios/switch"
    ensures r.data.Some? && r.data.value.Keys == {"id"} && r.data.value["id"] == studioId
  {
    BuildRequest(c, "POST", "/studios/switch", Some(map["id" := studioId]))
  }

  /** The path of `get_assets` without its optional assignee filter. */
  function AssetsPath(projectId: string, ext: string): string {
    "/projects/" + projectId + "/assets?ext=" + ext
  }

  /** `get_assets`: a body-less GET of the project's assets filtered by
      extension; `&assignee=` is appended exactly when an assignee is given. */
  function GetAssetsRequest(c: AgentClient, projectId: string, ext: string, assignee: string): (r: Request)
    ensures r.verb == "GET" && r.data.None?
    ensures assignee == "" ==> r.url == c.baseUrl + AssetsPath(projectId, ext)
    ensures assignee != "" ==> r.url == c.baseUrl + AssetsPath(projectId, ext) + "&assignee=" + assignee
  {
    var params := "?ext=" + ext;
    var params := if assignee != "" then params + "&assignee=" + assignee else params;
    BuildRequest(c, "GET", "/projects/" + projectId + "/assets" + params, None)
  }

  /** An assignee only ever extends the unfiltered URL; it never rewrites it. */
  lemma AssigneeExtendsUrl(c: AgentClient, projectId: string, ext: string, assignee: string)
    ensures var plain := GetAssetsRequest(c, projectId, ext, "").url;
            var r := GetAssetsRequest(c, projectId, ext, assignee).url;
            |plain| <= |r| && r[..|plain|] == plain
            && (r == plain <==> assignee == "")
  {
  }

  function CheckpointsPath(projectId: string, assetId: string): string {
    "/projects/" + projectId + "/assets/" + assetId + "/checkpoints"
  }

  function GetCheckpointsRequest(c: AgentClient, projectId: string, assetId: string): (r: Request)
    ensures r.verb == "GET" && r.data.None? && r.url == c.baseUrl + CheckpointsPath(projectId, assetId)
  {
    BuildRequest(c, "GET", CheckpointsPath(projectId, assetId), None)
  }

  /** `create_checkpoint`: a POST whose body has exactly the keys `message`
      and `filePath`, sent even when both are empty strings. */
  function CreateCheckpointRequest(c: AgentClient, projectId: string, assetId: string, message: string, filePath: string): (r: Request)
    ensures r.verb == "POST"
    ensures r.data.Some? && r.data.value.Keys == {"message", "filePath"}
    ensures r.data.value["message"] == message && r.data.value["filePath"] == filePath
  {
    BuildRequest(c, "POST", CheckpointsPath(projectId, assetId), Some(map["message" := message, "filePath" := filePath]))
  }

  /** Listing and creating checkpoints address the same resource. */
  lemma CheckpointEndpointsShareUrl(c: AgentClient, projectId: string, assetId: string, message: string, filePath: string)
    ensures GetCheckpointsRequest(c, projectId, assetId).url
         == CreateCheckpointRequest(c, projectId, assetId, message, filePath).url
  {
  }

  /** What became of a request: a response body that decoded as UTF-8, a
      `URLError` (which `HTTPError` is, so HTTP status errors land here too)
      with its reason, or any other exception with its text. */
  datatype Exchange = Delivered(content: string) | UrlFailure(reason: string) | Raised(text: string)

  /** The result of `json.loads`: a value, or the text of the exception. */
  datatype Decoded<J> = Parsed(value: J) | Malformed(text: string)

  /** `_request`'s outcome: it never raises; success is exactly a delivered
      body that is empty (no data) or decodes (the decoded data), and every
      failure carries its error text and no data. */
  function RequestOutcome<J>(x: Exchange, decode: string -> Decoded<J>): (r: Reply<J>)
    ensures r.Ok? <==> x.Delivered? && (x.content == "" || decode(x.content).Parsed?)
    ensures r == Ok(None) <==> x.Delivered? && x.content == ""
    ensures x.Delivered? && x.content != "" && decode(x.content).Parsed? ==> r == Ok(Some(decode(x.content).value))
    ensures x.Delivered? && x.content != "" && decode(x.content).Malformed? ==> r == Err(decode(x.content).text)
    ensures x.UrlFailure? ==> r == Err(x.reason)
    ensures x.Raised? ==> r == Err(x.text)
  {
    match x
    case Delivered(content) =>
      if content == "" then Ok(None)
      else (match decode(content)
            case Parsed(v) => Ok(Some(v))
            case Malformed(e) => Err(e))
    case UrlFailure(reason) => Err(reason)
    case Raised(text) => Err(text)
  }

  /** `health_check`: healthy exactly when the error is `None`; the error is
      passed through unchanged. */
  function HealthCheck<J>(reply: Reply<J>): (h: (bool, Option<string>))
    ensures h.0 <==> h.1.None?
    ensures h.0 <==> reply.Ok?
    ensures reply.Err? ==> h.1 == Some(reply.message)
  {
    (reply.Ok?, if reply.Err? then Some(reply.message) else None)
  }

  /** The agent counts as healthy exactly when it delivered a body that is
      empty or valid JSON. */
  lemma HealthOfExchange<J>(x: Exchange, decode: string -> Decoded<J>)
    ensures HealthCheck(RequestOutcome(x, decode)).0
        <==> x.Delivered? && (x.content == "" || decode(x.content).Parsed?)
  {
  }

  /** The result of `get_client()`: the client and the new value of the
      module-level `_instance`. */
  datatype Got = Got(client: AgentClient, instance: Option<AgentClient>)

  /** `get_client`: returns the existing instance, or creates the default one
      and keeps it. */
  function GetClient(instance: Option<AgentClient>): (g: Got)
    ensures g.instance == Some(g.client)
    ensures instance.Some? ==> g.client == instance.value
    ensures instance.None? ==> g.client == DefaultClient()
  {
    match instance
    case Some(c) => Got(c, instance)
    case None => var c := DefaultClient(); Got(c, Some(c))
  }

  /** Every call after the first returns the same client and keeps it. */
  lemma GetClientStable(instance: Option<AgentClient>)
    ensures GetClient(GetClient(instance).instance) == GetClient(instance)
  {
  }
}
