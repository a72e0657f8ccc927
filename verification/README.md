# Mariner baremetal installer commands: request construction and outcome

This project models the core of the `mariner-baremetal installer` Azure CLI
extension: the four commands `create`, `list`, `show` and `delete` that manage
one "installer image" resource through a REST endpoint. Each command is a
pure function. It takes what the CLI session and the network would supply as
inputs: the access token, the subscription id, the request id, the resource
group's default location, the loaded host configuration and the HTTP response.
It returns one `Run`:

- `Aborted(message)`: a `CLIError` is raised before any request.
- `Failed(error)`: an uncaught Python exception is raised before any request.
- `Sent(request, outcome)`: exactly one request is sent. The outcome is one of
  four things: the response body is printed, a confirmation is printed, an
  error is logged, or an exception escapes.

Modules, one concept each:

- `Wrappers`: Option and Result.
- `Json`: the parsed YAML/JSON tree, Python's `v[key]` on it, and a path lookup.
- `Strings`: suffix, first-occurrence search and associativity facts.
- `Decimal`: Python's `str(int)`, which renders status codes in error messages, and a reader that inverts it.
- `Constants`: `_constants.py`.
- `Endpoint`: `_construct_endpoint_url` and `_generate_storage_account_url`, each with a reader that inverts it.
- `RequestBody`: `_generate_create_request_body`, kept as a tree, with a strict reader.
- `Commands`: the four command functions, the headers and the status dispatch.
- `CommandLemmas`: properties that relate the commands to each other.

Behaviour that follows the code rather than a looser reading of it:

- `host_config is None` also holds for an empty or `null` YAML document. So
  create aborts when the loader failed and also when the document is null.
- Subscripting the loaded configuration raises `KeyError` for a mapping
  without `host-configuration`. It raises `TypeError` for a list, string,
  number or boolean document. Both escape uncaught, and no body is built.
- Create, list and show evaluate `response.json()` in debug f-strings before
  they look at the status. A body that is not JSON therefore raises whatever
  the status is. Delete never decodes the body.
- Delete treats 200 as "Successfully deleted", 204 as "Already deleted" and
  everything else as an error. The code has both branches, so the model does too.
- Nothing is URL-encoded. When neither the subscription id nor the resource
  group contains `/`, a reader recovers the subscription id, resource group
  and name from the endpoint (`Endpoint.ParseConstructRoundTrip`). When an
  input contains `/resourcegroups/`, two different input pairs can give the
  same URL (`Endpoint.UnescapedSegmentsCollide`). Inputs holding other `/`
  text are not covered either way.

## Model

| member | source | states |
|---|---|---|
| Endpoint.ConstructEndpointUrl | src/mariner-baremetal/azext_mariner_baremetal/custom.py:261-273 | every endpoint starts with the base endpoint URL and ends with `?api-version=2023-10-01-privatepreview` |
| Endpoint.SingletonInsertsName | src/mariner-baremetal/azext_mariner_baremetal/custom.py:266-271 | the singleton URL is the collection URL with `"/" + name` inserted immediately before `?api-version=`; nothing else differs |
| Endpoint.ParseConstructRoundTrip | src/mariner-baremetal/azext_mariner_baremetal/custom.py:261-273 | if the subscription id and resource group have no `/`, reading the endpoint back gives exactly the subscription id, resource group and optional name |
| Endpoint.ConstructParseRoundTrip | src/mariner-baremetal/azext_mariner_baremetal/custom.py:261-273 | every URL the reader accepts is the endpoint built from the pieces it reads, and those pieces are single path segments |
| Endpoint.UnescapedSegmentsCollide | src/mariner-baremetal/azext_mariner_baremetal/custom.py:267 | since nothing is escaped, moving `/resourcegroups/` text from the subscription id into the resource group gives a different pair of inputs but the same URL, in both forms |
| Endpoint.GenerateStorageAccountUrl | src/mariner-baremetal/azext_mariner_baremetal/custom.py:252-258 | the storage URL starts with `https://`, ends with `.blob.core.windows.net/`, and is exactly the account name longer than the two |
| Endpoint.StorageUrlRoundTrip | src/mariner-baremetal/azext_mariner_baremetal/custom.py:252-258 | stripping the fixed prefix and suffix from the storage URL recovers any account name |
| Endpoint.StorageNameRoundTrip | src/mariner-baremetal/azext_mariner_baremetal/custom.py:252-258 | every URL the storage reader accepts is the storage URL of the name it reads |
| Json.Subscript | src/mariner-baremetal/azext_mariner_baremetal/custom.py:298 | `v[key]` succeeds exactly on a mapping holding the key and returns its value; a mapping without it raises KeyError, anything else raises TypeError |
| RequestBody.GenerateCreateRequestBody | src/mariner-baremetal/azext_mariner_baremetal/custom.py:286-302 | a body exists iff the configuration is a mapping with `host-configuration`; its top-level keys are exactly `location` and `properties`; each of the five leaves equals its input, the host configuration unchanged; otherwise KeyError or TypeError |
| RequestBody.ReadBodyOf | src/mariner-baremetal/azext_mariner_baremetal/custom.py:290-300 | the strict reader (exact key sets at every level) recovers the five fields of any built body |
| RequestBody.BodyOfRead | src/mariner-baremetal/azext_mariner_baremetal/custom.py:290-300 | every value the strict reader accepts is exactly the body built from what it reads |
| RequestBody.CreateBodyRoundTrip | src/mariner-baremetal/azext_mariner_baremetal/custom.py:286-302 | the generated body reads back as location, account URL, container, installer name and the configuration's `host-configuration` value |
| Decimal.IntToStringRoundTrip | src/mariner-baremetal/azext_mariner_baremetal/custom.py:84 | the status code rendered into a message reads back as the same integer |
| Decimal.IntToStringInjective | src/mariner-baremetal/azext_mariner_baremetal/custom.py:84 | two status codes give the same rendering iff they are equal |
| Commands.RequestHeaders | src/mariner-baremetal/azext_mariner_baremetal/custom.py:55-59 | exactly three headers; the token is recovered by stripping `Bearer ` from Authorization; JSON content type; the supplied request id |
| Commands.ResolveLocation | src/mariner-baremetal/azext_mariner_baremetal/custom.py:36-40 | a given location is kept; a missing one becomes the supplied resource-group location |
| Commands.FailureMessage | src/mariner-baremetal/azext_mariner_baremetal/custom.py:83-85 | an error message is its fixed text followed by text that reads back as the status code |
| Commands.ReportJsonResponse | src/mariner-baremetal/azext_mariner_baremetal/custom.py:74-85 | exhaustive and exclusive: a body that is not JSON raises; otherwise the body is printed iff the status is 200 and an error naming the status is logged iff it is not; never a confirmation message |
| Commands.ReportDeleteResponse | src/mariner-baremetal/azext_mariner_baremetal/custom.py:236-246 | exhaustive and exclusive: "Successfully deleted" iff 200, "Already deleted" iff 204, an error naming the status iff neither; never prints a body or raises |
| Commands.CreateInstaller | src/mariner-baremetal/azext_mariner_baremetal/custom.py:18-85 | aborts with the token message iff there is no token; with a token, a None or null configuration aborts; a request is sent iff there is a token and the configuration is a mapping with `host-configuration`; with a token and a non-null configuration that is not sent, it fails with KeyError for a mapping and TypeError for anything else; the request is a PUT to the singleton URL with the bearer headers and a body reading back as the inputs, the defaulted location and the storage URL |
| Commands.ListInstallers | src/mariner-baremetal/azext_mariner_baremetal/custom.py:88-137 | aborts iff there is no token, otherwise sends a GET without body to the collection URL and reports the response |
| Commands.ShowInstaller | src/mariner-baremetal/azext_mariner_baremetal/custom.py:140-190 | aborts iff there is no token, otherwise sends a GET without body to the installer's singleton URL and reports the response |
| Commands.DeleteInstaller | src/mariner-baremetal/azext_mariner_baremetal/custom.py:193-246 | aborts iff there is no token, otherwise sends a DELETE without body to the installer's singleton URL and reports the status three ways |
| Commands.DeleteMessagesDiffer | src/mariner-baremetal/azext_mariner_baremetal/custom.py:238-242 | the two delete confirmations are different texts |
| CommandLemmas.CreateNameInUrlAndBody | src/mariner-baremetal/azext_mariner_baremetal/custom.py:43-65 | in a create that is sent, the PUT URL ends with `/`, the installer name and the api-version query, and the body's `blob-name` is the installer name |
| CommandLemmas.CommandsAddressTheirResource | src/mariner-baremetal/azext_mariner_baremetal/custom.py:109-111 | with single-segment subscription and resource group, the list URL (custom.py:109-111) reads back as the collection form; the create, show and delete URLs (custom.py:43-45, 162-164, 215-217) read back as the installer's own form |
| CommandLemmas.SingletonCommandsExtendListUrl | src/mariner-baremetal/azext_mariner_baremetal/custom.py:215-217 | show and delete request the same URL, which is the list URL with `/name` inserted before the query |
| CommandLemmas.ReadCommandsIgnoreLocation | src/mariner-baremetal/azext_mariner_baremetal/custom.py:102-106 | list, show and delete behave identically whatever location is given or defaulted |
| CommandLemmas.DeleteIgnoresResponseBody | src/mariner-baremetal/azext_mariner_baremetal/custom.py:232-246 | delete's behaviour depends only on the status code, not on the response body |
| CommandLemmas.CreateExampleBody | src/mariner-baremetal/azext_mariner_baremetal/custom.py:290-300 | a create for `rg1`/`sa1`/`bc1` with `host-configuration: {hostname: h1}` sends exactly the expected body |
| CommandLemmas.StorageUrlExample | src/mariner-baremetal/azext_mariner_baremetal/custom.py:254-257 | account `sa1` gives `https://sa1.blob.core.windows.net/` |
| CommandLemmas.ShowExampleOutcomes | src/mariner-baremetal/azext_mariner_baremetal/custom.py:184-190 | show answered 200 prints the JSON body; answered 404 logs an error naming 404 |

## Left out

- HTTP transport (`requests.put/get/delete`): network I/O. The response is an input. A transport exception is not modelled.
- `Profile.get_raw_token` and `get_subscription_id`: Azure CLI session lookups. Their results are inputs. A failure inside them is not modelled.
- Commands.ResolveLocation: its `groupLocation` input stands for the resource group's location that the argument validator registered for `location` at src/mariner-baremetal/azext_mariner_baremetal/_params.py:43 fills in before a command runs. On a CLI invocation that validator has already replaced a missing location, and the CLI also defaults an empty `--location ""`, which the model keeps as given. The as-written fallback call at custom.py:37, which passes the resource-group name where the validator expects the argument namespace and uses its return value as the location, is not modelled.
- `_create_host_config_dict`: opening the file and `yaml.safe_load`. The result is an input of type `Option<Value>`. `None` means the loader logged an exception.
- The TypeError that `json.dumps` raises at custom.py:301 for YAML values JSON cannot hold (timestamps, `!!binary`, `!!set`): `Json.Value` cannot represent them, so a create that would fail there before the PUT is not modelled.
- `json.dumps` for the body and for printed output. Bodies and printed documents are trees, not strings, and indentation and key order are not modelled.
- `uuid.uuid1()`: nondeterministic. The request id is an input copied into `x-ms-client-request-id`, so freshness across calls is not stated.
- `logger.debug` output, including the unredacted token: a side effect with no result.
- Floating-point YAML values and non-string mapping keys: `Json.Value` has integers and string-keyed mappings only.
- The `update` command: it is bound to the same function as create, so `CreateInstaller` covers it.
- Argument registration, help text and command-table wiring: no logic.
