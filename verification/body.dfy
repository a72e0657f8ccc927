/**
 * `_generate_create_request_body`: the payload of the create (PUT) request,
 * kept as a tree value rather than the string `json.dumps` makes of it,
 * together with a strict reader that recovers the builder's inputs.
 */
module RequestBody {
  import opened Wrappers
  import opened Json

  /** The key of the loaded host configuration whose value is sent. */
  const HostConfigurationKey: string := "host-configuration"

  /** The inputs of a create body, as a reader recovers them. */
  datatype CreateFields = CreateFields(
    location: string,
    accountUrl: string,
    containerName: string,
    blobName: string,
    hostConfiguration: Value)

  /** The fixed nested mapping the inputs are placed into. */
  function BodyOf(f: CreateFields): Value
  {
    Object(map[
      "location" := Str(f.location),
      "properties" := Object(map[
        "blob-storage-configuration" := Object(map[
          "account-url" := Str(f.accountUrl),
          "container-name" := Str(f.containerName),
          "blob-name" := Str(f.blobName)]),
        HostConfigurationKey := f.hostConfiguration])])
  }

  /**
   * The create body. Subscripting the loaded configuration raises when it is
   * a mapping without `host-configuration` (KeyError) or not a mapping at all
   * (TypeError); no body is built then.
   */
  function GenerateCreateRequestBody(
    location: string, storageAccount: string, blobContainer: string,
    installerFile: string, hostConfig: Value): (r: Result<Value, PyError>)
    ensures r.Success? <==> hostConfig.Object? && HostConfigurationKey in hostConfig.fields
    ensures hostConfig.Object? && HostConfigurationKey !in hostConfig.fields
            ==> r == Failure(KeyError(HostConfigurationKey))
    ensures !hostConfig.Object? ==> r == Failure(TypeError)
    ensures r.Success? ==>
      && r.value.Object?
      && r.value.fields.Keys == {"location", "properties"}
      && Path(r.value, ["location"]) == Some(Str(location))
      && Path(r.value, ["properties", "blob-storage-configuration", "account-url"]) == Some(Str(storageAccount))
      && Path(r.value, ["properties", "blob-storage-configuration", "container-name"]) == Some(Str(blobContainer))
      && Path(r.value, ["properties", "blob-storage-configuration", "blob-name"]) == Some(Str(installerFile))
      && Path(r.value, ["properties", HostConfigurationKey]) == Some(hostConfig.fields[HostConfigurationKey])
  {
    match Subscript(hostConfig, HostConfigurationKey)
    case Failure(e) => Failure(e)
    case Success(hc) =>
      var body := BodyOf(CreateFields(location, storageAccount, blobContainer, installerFile, hc));
      assert Path(body.fields["properties"], [HostConfigurationKey]) == Some(hc);
      Success(body)
  }

  /** True when `v` is a mapping whose keys are exactly `keys`. */
  predicate HasExactKeys(v: Value, keys: set<string>)
  {
    v.Object? && v.fields.Keys == keys
  }

  /** A string leaf's text. */
  function AsString(v: Value): Option<string>
  {
    if v.Str? then Some(v.s) else None
  }

  /**
   * Reads a create body back into its five fields. It accepts only the exact
   * shape the builder makes: no missing and no extra keys at any level.
   */
  function ReadCreateBody(v: Value): Option<CreateFields>
  {
    if !HasExactKeys(v, {"location", "properties"}) then None
    else
      var props := v.fields["properties"];
      if !HasExactKeys(props, {"blob-storage-configuration", HostConfigurationKey}) then None
      else
        var blob := props.fields["blob-storage-configuration"];
        if !HasExactKeys(blob, {"account-url", "container-name", "blob-name"}) then None
        else
          match (AsString(v.fields["location"]), AsString(blob.fields["account-url"]),
                 AsString(blob.fields["container-name"]), AsString(blob.fields["blob-name"]))
          case (Some(loc), Some(acct), Some(cont), Some(name)) =>
            Some(CreateFields(loc, acct, cont, name, props.fields[HostConfigurationKey]))
          case _ => None
  }

  /** Reading a built body gives back exactly the fields it was built from. */
  lemma ReadBodyOf(f: CreateFields)
    ensures ReadCreateBody(BodyOf(f)) == Some(f)
  {
    var v := BodyOf(f);
    assert v.fields.Keys == {"location", "properties"};
    var props := v.fields["properties"];
    assert props.fields.Keys == {"blob-storage-configuration", HostConfigurationKey};
    assert props.fields["blob-storage-configuration"].fields.Keys == {"account-url", "container-name", "blob-name"};
  }

  /** Every value the reader accepts is the body built from what it reads. */
  lemma BodyOfRead(v: Value)
    requires ReadCreateBody(v).Some?
    ensures BodyOf(ReadCreateBody(v).value) == v
  {
    var f := ReadCreateBody(v).value;
    var props := v.fields["properties"];
    var blob := props.fields["blob-storage-configuration"];
    assert blob.fields == map[
      "account-url" := Str(f.accountUrl),
      "container-name" := Str(f.containerName),
      "blob-name" := Str(f.blobName)];
    assert props.fields == map[
      "blob-storage-configuration" := blob,
      HostConfigurationKey := f.hostConfiguration];
    assert v.fields == map["location" := Str(f.location), "properties" := props];
  }

  /**
   * The body generated from a configuration carrying `host-configuration`
   * reads back as the five inputs, the host configuration unchanged.
   */
  lemma CreateBodyRoundTrip(
    location: string, storageAccount: string, blobContainer: string,
    installerFile: string, hostConfig: Value)
    requires hostConfig.Object? && HostConfigurationKey in hostConfig.fields
    ensures var r := GenerateCreateRequestBody(location, storageAccount, blobContainer, installerFile, hostConfig);
            && r.Success?
            && ReadCreateBody(r.value)
               == Some(CreateFields(location, storageAccount, blobContainer, installerFile,
                                    hostConfig.fields[HostConfigurationKey]))
  {
    ReadBodyOf(CreateFields(location, storageAccount, blobContainer, installerFile,
                            hostConfig.fields[HostConfigurationKey]));
  }
}
