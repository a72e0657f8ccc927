/**
 * Properties that relate the commands to each other and to the URL and body
 * readers: which resource each command addresses, where the installer name
 * ends up, and which inputs do not matter.
 */
module CommandLemmas {
  import opened Wrappers
  import opened Json
  import opened Strings
  import opened Decimal
  import opened Constants
  import opened Endpoint
  import opened RequestBody
  import opened Commands

  /**
   * In a create that sends its request, the PUT URL ends with `/`, the
   * installer name and the api-version query, and the body's `blob-name` is
   * the installer name.
   */
  lemma CreateNameInUrlAndBody(
    session: Session, resourceGroup: string, storageAccountName: string,
    blobContainerName: string, hostConfig: Option<Value>, installerName: string,
    location: Option<string>, groupLocation: string, response: Response)
    requires CreateInstaller(session, resourceGroup, storageAccountName, blobContainerName, hostConfig,
                             installerName, location, groupLocation, response).Sent?
    ensures var req := CreateInstaller(session, resourceGroup, storageAccountName, blobContainerName,
                                       hostConfig, installerName, location, groupLocation, response).request;
            && EndsWith(req.url, "/" + installerName + ApiVersionQuery)
            && Path(req.body.value, ["properties", "blob-storage-configuration", "blob-name"])
               == Some(Str(installerName))
  {
    var req := CreateInstaller(session, resourceGroup, storageAccountName, blobContainerName,
                               hostConfig, installerName, location, groupLocation, response).request;
    var r := ResourceTypeUrl(session.subscriptionId, resourceGroup);
    ConcatAssoc(r, "/" + installerName, ApiVersionQuery);
    assert req.url[|req.url| - |"/" + installerName + ApiVersionQuery|..] == "/" + installerName + ApiVersionQuery;
    BodyOfRead(req.body.value);
    var blob := req.body.value.fields["properties"].fields["blob-storage-configuration"];
    assert Path(blob, ["blob-name"]) == Some(Str(installerName));
  }

  /**
   * With a subscription id and resource group that are single path segments,
   * the URL a command requests reads back as the collection form for list and
   * as the installer's own form for create, show and delete.
   */
  lemma CommandsAddressTheirResource(
    session: Session, resourceGroup: string, installerName: string,
    storageAccountName: string, blobContainerName: string, hostConfig: Option<Value>,
    location: Option<string>, groupLocation: string, response: Response)
    requires IsSegment(session.subscriptionId) && IsSegment(resourceGroup)
    requires session.accessToken.Some?
    ensures ParseEndpointUrl(ListInstallers(session, resourceGroup, location, groupLocation, response).request.url)
            == Some(EndpointParts(session.subscriptionId, resourceGroup, None))
    ensures ParseEndpointUrl(ShowInstaller(session, resourceGroup, installerName, location, groupLocation, response).request.url)
            == Some(EndpointParts(session.subscriptionId, resourceGroup, Some(installerName)))
    ensures ParseEndpointUrl(DeleteInstaller(session, resourceGroup, installerName, location, groupLocation, response).request.url)
            == Some(EndpointParts(session.subscriptionId, resourceGroup, Some(installerName)))
    ensures var run := CreateInstaller(session, resourceGroup, storageAccountName, blobContainerName,
                                       hostConfig, installerName, location, groupLocation, response);
            run.Sent? ==>
              ParseEndpointUrl(run.request.url)
              == Some(EndpointParts(session.subscriptionId, resourceGroup, Some(installerName)))
  {
    ParseConstructRoundTrip(session.subscriptionId, resourceGroup, None);
    ParseConstructRoundTrip(session.subscriptionId, resourceGroup, Some(installerName));
  }

  /**
   * Show and delete request the list URL with `/name` inserted before the
   * query, and the same URL as each other.
   */
  lemma SingletonCommandsExtendListUrl(
    session: Session, resourceGroup: string, installerName: string,
    location: Option<string>, groupLocation: string, response: Response)
    requires session.accessToken.Some?
    ensures var coll := ListInstallers(session, resourceGroup, location, groupLocation, response).request.url;
            var show := ShowInstaller(session, resourceGroup, installerName, location, groupLocation, response).request.url;
            var del := DeleteInstaller(session, resourceGroup, installerName, location, groupLocation, response).request.url;
            var cut := |coll| - |ApiVersionQuery|;
            && 0 <= cut
            && show == coll[..cut] + "/" + installerName + coll[cut..]
            && del == show
  {
    SingletonInsertsName(session.subscriptionId, resourceGroup, installerName);
  }

  /**
   * List, show and delete resolve the location but never use it: their
   * behaviour is the same whatever location is given or defaulted.
   */
  lemma ReadCommandsIgnoreLocation(
    session: Session, resourceGroup: string, installerName: string,
    location1: Option<string>, groupLocation1: string,
    location2: Option<string>, groupLocation2: string, response: Response)
    ensures ListInstallers(session, resourceGroup, location1, groupLocation1, response)
            == ListInstallers(session, resourceGroup, location2, groupLocation2, response)
    ensures ShowInstaller(session, resourceGroup, installerName, location1, groupLocation1, response)
            == ShowInstaller(session, resourceGroup, installerName, location2, groupLocation2, response)
    ensures DeleteInstaller(session, resourceGroup, installerName, location1, groupLocation1, response)
            == DeleteInstaller(session, resourceGroup, installerName, location2, groupLocation2, response)
  {
  }

  /** Delete never decodes the response body: only the status code matters. */
  lemma DeleteIgnoresResponseBody(
    session: Session, resourceGroup: string, installerName: string,
    location: Option<string>, groupLocation: string, statusCode: int, json1: Option<Value>, json2: Option<Value>)
    ensures DeleteInstaller(session, resourceGroup, installerName, location, groupLocation, Response(statusCode, json1))
            == DeleteInstaller(session, resourceGroup, installerName, location, groupLocation, Response(statusCode, json2))
  {
  }

  /**
   * A create whose configuration file held `host-configuration: {hostname: h1}`
   * sends exactly the body below, with the default installer name as
   * `blob-name` and the storage account's blob endpoint as `account-url`.
   */
  lemma CreateExampleBody(session: Session, response: Response)
    requires session.accessToken.Some?
    ensures var hc := Object(map["hostname" := Str("h1")]);
            var run := CreateInstaller(session, "rg1", "sa1", "bc1",
                                       Some(Object(map[HostConfigurationKey := hc])),
                                       DefaultInstallerResourceName, Some("eastus"), "westus", response);
            && run.Sent?
            && run.request.body == Some(Object(map[
                 "location" := Str("eastus"),
                 "properties" := Object(map[
                   "blob-storage-configuration" := Object(map[
                     "account-url" := Str("https://sa1.blob.core.windows.net/"),
                     "container-name" := Str("bc1"),
                     "blob-name" := Str("mariner-baremetal-installer")]),
                   "host-configuration" := hc])]))
  {
    var hc := Object(map["hostname" := Str("h1")]);
    var run := CreateInstaller(session, "rg1", "sa1", "bc1", Some(Object(map[HostConfigurationKey := hc])),
                               DefaultInstallerResourceName, Some("eastus"), "westus", response);
    StorageUrlExample();
    assert run.Sent?;
    BodyOfRead(run.request.body.value);
  }

  lemma StorageUrlExample()
    ensures GenerateStorageAccountUrl("sa1") == "https://sa1.blob.core.windows.net/"
  {
  }

  /**
   * Show answered 200 with a JSON body prints that body and logs nothing;
   * answered 404 it prints nothing and logs an error naming 404.
   */
  lemma ShowExampleOutcomes(session: Session, resourceGroup: string, installerName: string)
    requires session.accessToken.Some?
    ensures var doc := Object(map["name" := Str("foo")]);
            ShowInstaller(session, resourceGroup, installerName, None, "", Response(200, Some(doc))).outcome
            == PrintJson(doc)
    ensures var o := ShowInstaller(session, resourceGroup, installerName, None, "",
                                   Response(404, Some(Null))).outcome;
            && o.LogError?
            && ParseInt(o.text[|ShowFailurePrefix(installerName)|..]) == Some(404)
  {
  }
}
