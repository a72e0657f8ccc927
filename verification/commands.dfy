/**
 * The four installer commands of custom.py (create, list, show, delete) as
 * pure functions from their inputs to what the invocation does: abort before
 * any request, fail with an uncaught exception, or send exactly one request
 * and report its response.
 *
 * What the Azure CLI session and the network supply is passed in: the access
 * token (None when none could be retrieved), the subscription id, the request
 * id that `uuid.uuid1()` would generate, the resource group's default
 * location, the loaded host configuration and the HTTP response.
 */
module Commands {
  import opened Wrappers
  import opened Json
  import opened Decimal
  import opened Endpoint
  import opened RequestBody

  datatype HttpMethod = Put | Get | Delete

  /** One outbound request: the body is present only for create. */
  datatype Request = Request(verb: HttpMethod, url: string, headers: map<string, string>, body: Option<Value>)

  /** The response: its status code and its decoded body (None when the body is not JSON). */
  datatype Response = Response(statusCode: int, json: Option<Value>)

  /** What the command does with the response. */
  datatype Outcome =
    | PrintJson(document: Value)   // `print(json.dumps(response.json(), indent=2))`
    | PrintMessage(text: string)   // `print(...)` of a confirmation
    | LogError(text: string)       // `logger.error(...)`
    | Raise(error: PyError)        // an exception escapes after the request was sent

  /** One invocation of a command. */
  datatype Run =
    | Aborted(message: string)                 // a CLIError raised before any request
    | Failed(error: PyError)                   // an uncaught exception before any request
    | Sent(request: Request, outcome: Outcome) // exactly one request, then its outcome

  /** What the signed-in session supplies to every command. */
  datatype Session = Session(accessToken: Option<string>, subscriptionId: string, requestId: string)

  const TokenErrorMessage: string := "Error retrieving AAD access token! Please log in and try again."
  const HostConfigErrorMessage: string := "Error parsing provided host configuration file"
  const BearerPrefix: string := "Bearer "

  /** The three headers every request carries. */
  function RequestHeaders(accessToken: string, requestId: string): (h: map<string, string>)
    ensures h.Keys == {"Authorization", "Content-Type", "x-ms-client-request-id"}
    ensures BearerPrefix <= h["Authorization"] && h["Authorization"][|BearerPrefix|..] == accessToken
    ensures h["Content-Type"] == "application/json"
    ensures h["x-ms-client-request-id"] == requestId
  {
    var auth := BearerPrefix + accessToken;
    assert auth[|BearerPrefix|..] == accessToken;
    map["Authorization" := auth, "Content-Type" := "application/json", "x-ms-client-request-id" := requestId]
  }

  /** A missing location falls back to the resource group's default location. */
  function ResolveLocation(location: Option<string>, groupLocation: string): (loc: string)
    ensures location.Some? ==> loc == location.value
    ensures location.None? ==> loc == groupLocation
  {
    match location
    case Some(l) => l
    case None => groupLocation
  }

  /**
   * `host_config is None`: the loader failed (it logs and returns None), or
   * the YAML document itself is empty or null, which `yaml.safe_load` also
   * returns as None.
   */
  predicate HostConfigIsNone(hostConfig: Option<Value>)
  {
    hostConfig.None? || hostConfig.value.Null?
  }

  function CreateFailurePrefix(installerName: string): string
  {
    "Failed to create Mariner Baremetal installer image " + installerName + " with status code "
  }

  const ListFailurePrefix: string := "Failed to list Mariner Baremetal installer image resources with status code "

  function ShowFailurePrefix(installerName: string): string
  {
    "Failed to show Mariner Baremetal installer image " + installerName + " with status code "
  }

  function DeleteFailurePrefix(installerName: string): string
  {
    "Failed to delete Mariner Baremetal installer image " + installerName + " with status code "
  }

  function DeletedMessage(installerName: string): string
  {
    "Successfully deleted Mariner Baremetal installer image " + installerName
  }

  function AlreadyDeletedMessage(installerName: string): string
  {
    "Already deleted Mariner Baremetal installer image " + installerName
  }

  lemma DeleteMessagesDiffer(installerName: string)
    ensures DeletedMessage(installerName) != AlreadyDeletedMessage(installerName)
  {
    assert |DeletedMessage(installerName)| != |AlreadyDeletedMessage(installerName)|;
  }

  /** An error message naming the status code after a fixed text. */
  function FailureMessage(prefix: string, statusCode: int): (m: string)
    ensures prefix <= m
    ensures ParseInt(m[|prefix|..]) == Some(statusCode)
  {
    var m := prefix + IntToString(statusCode);
    assert m[|prefix|..] == IntToString(statusCode);
    IntToStringRoundTrip(statusCode);
    m
  }

  /**
   * The response handling of create, list and show. The body is decoded for
   * the debug log before the status is looked at, so a body that is not JSON
   * raises whatever the status; otherwise 200 prints the body and every other
   * status only logs an error naming the status code.
   */
  function ReportJsonResponse(response: Response, failurePrefix: string): (o: Outcome)
    ensures o == Raise(JsonDecodeError) <==> response.json.None?
    ensures o.PrintJson? <==> response.json.Some? && response.statusCode == 200
    ensures o.PrintJson? ==> o.document == response.json.value
    ensures o.LogError? <==> response.json.Some? && response.statusCode != 200
    ensures o.LogError? ==> failurePrefix <= o.text && ParseInt(o.text[|failurePrefix|..]) == Some(response.statusCode)
    ensures !o.PrintMessage?
  {
    match response.json
    case None => Raise(JsonDecodeError)
    case Some(document) =>
      if response.statusCode == 200 then PrintJson(document)
      else LogError(FailureMessage(failurePrefix, response.statusCode))
  }

  /**
   * The response handling of delete, which never decodes the body: 200 and
   * 204 print a confirmation, every other status logs an error.
   */
  function ReportDeleteResponse(response: Response, installerName: string): (o: Outcome)
    ensures o == PrintMessage(DeletedMessage(installerName)) <==> response.statusCode == 200
    ensures o == PrintMessage(AlreadyDeletedMessage(installerName)) <==> response.statusCode == 204
    ensures o.LogError? <==> response.statusCode != 200 && response.statusCode != 204
    ensures o.LogError? ==>
      DeleteFailurePrefix(installerName) <= o.text
      && ParseInt(o.text[|DeleteFailurePrefix(installerName)|..]) == Some(response.statusCode)
    ensures o.PrintMessage? || o.LogError?
  {
    DeleteMessagesDiffer(installerName);
    if response.statusCode == 200 then PrintMessage(DeletedMessage(installerName))
    else if response.statusCode == 204 then PrintMessage(AlreadyDeletedMessage(installerName))
    else LogError(FailureMessage(DeleteFailurePrefix(installerName), response.statusCode))
  }

  /** `create_mariner_baremetal_installer` (also bound to `update`). */
  function CreateInstaller(
    session: Session, resourceGroup: string, storageAccountName: string,
    blobContainerName: string, hostConfig: Option<Value>, installerName: string,
    location: Option<string>, groupLocation: string, response: Response): (run: Run)
    ensures session.accessToken.None? <==> run == Aborted(TokenErrorMessage)
    ensures session.accessToken.Some? && HostConfigIsNone(hostConfig) ==> run == Aborted(HostConfigErrorMessage)
    ensures session.accessToken.Some? && !HostConfigIsNone(hostConfig) && !run.Sent? ==>
      run == Failed(if hostConfig.value.Object? then KeyError(HostConfigurationKey) else TypeError)
    ensures run.Sent? <==>
      && session.accessToken.Some?
      && hostConfig.Some? && hostConfig.value.Object?
      && HostConfigurationKey in hostConfig.value.fields
    ensures run.Failed? ==>
      run.error == KeyError(HostConfigurationKey) || run.error == TypeError
    ensures run.Sent? ==>
      && run.request.verb == Put
      && run.request.url == ConstructEndpointUrl(session.subscriptionId, resourceGroup, Some(installerName))
      && run.request.headers == RequestHeaders(session.accessToken.value, session.requestId)
      && run.request.body.Some?
      && ReadCreateBody(run.request.body.value) == Some(CreateFields(
           ResolveLocation(location, groupLocation),
           GenerateStorageAccountUrl(storageAccountName),
           blobContainerName,
           installerName,
           hostConfig.value.fields[HostConfigurationKey]))
      && run.outcome == ReportJsonResponse(response, CreateFailurePrefix(installerName))
  {
    match session.accessToken
    case None => Aborted(TokenErrorMessage)
    case Some(token) =>
      var loc := ResolveLocation(location, groupLocation);
      var url := ConstructEndpointUrl(session.subscriptionId, resourceGroup, Some(installerName));
      var storageUrl := GenerateStorageAccountUrl(storageAccountName);
      if HostConfigIsNone(hostConfig) then Aborted(HostConfigErrorMessage)
      else
        var headers := RequestHeaders(token, session.requestId);
        match GenerateCreateRequestBody(loc, storageUrl, blobContainerName, installerName, hostConfig.value)
        case Failure(e) => Failed(e)
        case Success(body) =>
          CreateBodyRoundTrip(loc, storageUrl, blobContainerName, installerName, hostConfig.value);
          Sent(Request(Put, url, headers, Some(body)),
               ReportJsonResponse(response, CreateFailurePrefix(installerName)))
  }

  /** `list_mariner_baremetal_installer`: a GET on the collection URL. */
  function ListInstallers(
    session: Session, resourceGroup: string,
    location: Option<string>, groupLocation: string, response: Response): (run: Run)
    ensures session.accessToken.None? <==> run == Aborted(TokenErrorMessage)
    ensures session.accessToken.Some? <==> run.Sent?
    ensures run.Sent? ==>
      && run.request.verb == Get
      && run.request.url == ConstructEndpointUrl(session.subscriptionId, resourceGroup, None)
      && run.request.headers == RequestHeaders(session.accessToken.value, session.requestId)
      && run.request.body.None?
      && run.outcome == ReportJsonResponse(response, ListFailurePrefix)
  {
    match session.accessToken
    case None => Aborted(TokenErrorMessage)
    case Some(token) =>
      var url := ConstructEndpointUrl(session.subscriptionId, resourceGroup, None);
      Sent(Request(Get, url, RequestHeaders(token, session.requestId), None),
           ReportJsonResponse(response, ListFailurePrefix))
  }

  /** `show_mariner_baremetal_installer`: a GET on the installer's own URL. */
  function ShowInstaller(
    session: Session, resourceGroup: string, installerName: string,
    location: Option<string>, groupLocation: string, response: Response): (run: Run)
    ensures session.accessToken.None? <==> run == Aborted(TokenErrorMessage)
    ensures session.accessToken.Some? <==> run.Sent?
    ensures run.Sent? ==>
      && run.request.verb == Get
      && run.request.url == ConstructEndpointUrl(session.subscriptionId, resourceGroup, Some(installerName))
      && run.request.headers == RequestHeaders(session.accessToken.value, session.requestId)
      && run.request.body.None?
      && run.outcome == ReportJsonResponse(response, ShowFailurePrefix(installerName))
  {
    match session.accessToken
    case None => Aborted(TokenErrorMessage)
    case Some(token) =>
      var url := ConstructEndpointUrl(session.subscriptionId, resourceGroup, Some(installerName));
      Sent(Request(Get, url, RequestHeaders(token, session.requestId), None),
           ReportJsonResponse(response, ShowFailurePrefix(installerName)))
  }

  /** `delete_mariner_baremetal_installer`: a DELETE on the installer's own URL. */
  function DeleteInstaller(
    session: Session, resourceGroup: string, installerName: string,
    location: Option<string>, groupLocation: string, response: Response): (run: Run)
    ensures session.accessToken.None? <==> run == Aborted(TokenErrorMessage)
    ensures session.accessToken.Some? <==> run.Sent?
    ensures run.Sent? ==>
      && run.request.verb == Delete
      && run.request.url == ConstructEndpointUrl(session.subscriptionId, resourceGroup, Some(installerName))
      && run.request.headers == RequestHeaders(session.accessToken.value, session.requestId)
      && run.request.body.None?
      && run.outcome == ReportDeleteResponse(response, installerName)
  {
    match session.accessToken
    case None => Aborted(TokenErrorMessage)
    case Some(token) =>
      var url := ConstructEndpointUrl(session.subscriptionId, resourceGroup, Some(installerName));
      Sent(Request(Delete, url, RequestHeaders(token, session.requestId), None),
           ReportDeleteResponse(response, installerName))
  }
}
