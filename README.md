# SonarQube portfolio resource: a Dafny model

This project models the portfolio resource of a Terraform provider for SonarQube. The provider
reconciles a declared portfolio with the server's `api/views` endpoints. The model covers:

- the `Portfolio` JSON object and the nine attributes the resource stores (key, name,
  description, qualifier, visibility, selection_mode, branch, tags, regexp);
- the validators of `visibility` and `selection_mode`;
- the selection-mode dispatcher `portfolioSetSelectionMode`, including how it turns the tag list
  into the `tags` query parameter;
- the request sequences of Create, Read, Update, Delete and Import.

Files:

- `go_strings.dfy` (module `GoStrings`): the Go library string functions the resource relies
  on. These are `unicode.IsSpace`, `strings.Fields`, `strings.Join`, `strings.Trim`,
  `strings.TrimSuffix` and `fmt.Sprint` of a `[]string`. The file also has lemmas about them.
- `schema.dfy` (module `PortfolioSchema`): the `Portfolio` struct, the attributes, the validators,
  and `HasChange`. `HasChange` says whether an attribute differs between the state stored before
  the operation (`prior`) and the value being applied (`config`). On Create the stored state is
  `BLANK`, with every attribute at its zero value.
- `api.dfy` (module `PortfolioApi`): the requests, the server's replies and the errors. For each
  operation it has a specification function (`DispatchRun`, `CreateRun`, `ReadRun`, `UpdateRun`,
  `DeleteRun`). Each one gives the requests sent in order, the error returned and the data left
  behind, as a function of how the server answers each request.
- `resource.dfy` (module `PortfolioResource`): the callbacks as imperative code.
  - Class `ResourceData` holds the id, the stored state and the configuration. `SetId` and `Set`
    update it in place.
  - Class `Provider` holds the base URL and the HTTP helper. The helper records every request in
    `sent` and answers from the function `server`.
  - Each callback rewrites a local copy of the URL step by step, just as the Go code rewrites
    `sonarQubeURL`. It is proved to send exactly the requests, return exactly the error and leave
    exactly the data that its specification function describes.
- `properties.dfy` (module `PortfolioProperties`): what the resource promises, proved about the
  specification functions.

The model keeps a quirk of `resourceSonarqubePortfolioUpdate`. When name or description changed,
Update rewrites its URL's path to `.../api/views/update`. It then hands that same URL to the
dispatcher, which appends its own endpoint. The selection-mode request therefore goes to
`<base>/api/views/update/api/views/set_..._mode` (`UpdateModePath`). The dispatcher also names
itself `resourceSonarqubePortfolioCreate` when called from Update, and the model keeps that caller
name.

Another consequence of the code: nothing is stored before Create, so the selection-mode guards
compare against zero values. A TAGS portfolio with no branch and no tags therefore gets no
`set_tags_mode` call on Create (`CreateSkipsUnchangedTagsMode`).

`TagsCsv` is the Go expression of line 143 as written, so it keeps that expression's edge cases:

- An empty tag between two others disappears: `["a", "", "b"]` gives `a,b` (`CsvDropsInnerEmptyTag`).
- An empty first tag leaves a leading comma: `["", "a"]` gives `,a` (`CsvKeepsCommaOfLeadingEmptyTag`).
- An empty last tag leaves a trailing comma: `["a", ""]` gives `a,`.
- A tag containing white space is split in two (`CsvSplitsTagAtSpace`).
- Brackets at the outer ends of the first and last tags are trimmed, so `["[x"]` gives `x`.

What the code does on failures and repeated calls:

- Read returns an error wrapping the helper's error when the show call fails, and that includes
  a portfolio that is not found. It has no separate "removed externally" outcome.
- Delete returns the helper's error for a portfolio that is already gone. It does not treat that
  as success.
- Read stores what the server returns, so Create followed by Read need not give back the
  configured values (`ReadReplacesState`).
- `tags` and `regexp` are mutually exclusive. The schema declares this with `ConflictsWith`, and
  the Terraform SDK enforces it before any callback runs, so the callbacks never see both set.

## Model

| member | source | states |
|---|---|---|
| `PortfolioSchema.Lookup` | sonarqube/resource_sonarqube_portfolio.go:40-108 | every attribute's value has the schema's type: tags is a list of strings, the other eight are strings |
| `PortfolioSchema.Put` | sonarqube/resource_sonarqube_portfolio.go:261-270 | storing a value changes only the named attribute, and a value of the wrong type changes nothing |
| `PortfolioSchema.ValidateVisibility` | sonarqube/resource_sonarqube_portfolio.go:65-73 | no warnings; no error exactly when the value is "public" or "private"; otherwise one error |
| `PortfolioSchema.ValidateSelectionMode` | sonarqube/resource_sonarqube_portfolio.go:80-87 | no warnings; no error exactly when the value is one of NONE, MANUAL, TAGS, REGEXP, REST; otherwise one error |
| `GoStrings.TrimSuffix` | sonarqube/resource_sonarqube_portfolio.go:177 | a path ending in "/" loses exactly that one "/"; any other path is unchanged |
| `GoStrings.FieldsOfJoinedWords` | sonarqube/resource_sonarqube_portfolio.go:143 | splitting space-joined non-empty words without white space at white space gives the words back |
| `GoStrings.TrimSlashNoop` | sonarqube/resource_sonarqube_portfolio.go:177 | removing a trailing "/" leaves a path whose last character is not "/" unchanged |
| `PortfolioApi.TagsCsv` | sonarqube/resource_sonarqube_portfolio.go:139-143 | the definition (no contract of its own): the Go expression of line 143, Trim(Join(Fields(Sprint(tags)), ","), "[]"). Its properties are in CsvOfNoTags, CsvIsFieldsOfJoinedTags, CsvOfCleanTags, CsvSplitsTagAtSpace, CsvDropsInnerEmptyTag and CsvKeepsCommaOfLeadingEmptyTag |
| `PortfolioApi.SelectionModeCall` | sonarqube/resource_sonarqube_portfolio.go:117-177 | the definition (no contract of its own): the dispatcher's decision (unknown mode, skipped by the guard, or the request issued). Its properties are in DispatchDecision, DispatchedRequest and DispatchFailsExactlyOnRejectedModes |
| `PortfolioApi.DispatchRun` | sonarqube/resource_sonarqube_portfolio.go:117-192 | the definition (no contract of its own): the dispatcher run against the server. Its properties are in DispatchSendsAtMostOne, and PortfolioResource.SetSelectionMode is proved equal to it |
| `PortfolioApi.ReadRun` | sonarqube/resource_sonarqube_portfolio.go:233-273 | the definition (no contract of its own): Read run against the server. Its properties are in ReadReplacesState and ReadIgnoresHeldAttributes, and PortfolioResource.Read is proved equal to it |
| `PortfolioApi.CreateRun` | sonarqube/resource_sonarqube_portfolio.go:194-231 | the definition (no contract of its own): Create run against the server. Its properties are in CreateSendsCreateFirst, CreatePlan, CreateSkipsUnchangedTagsMode and CreateTagsPortfolio, and PortfolioResource.Create is proved equal to it |
| `PortfolioApi.UpdateTail` | sonarqube/resource_sonarqube_portfolio.go:299-306 | the definition (no contract of its own): Update after the name/description call, meaning the dispatcher on the given URL when the selection group changed, then Read. PortfolioResource.UpdateSelectionAndRead is proved equal to it |
| `PortfolioApi.UpdateRun` | sonarqube/resource_sonarqube_portfolio.go:275-307 | the definition (no contract of its own): Update run against the server. Its properties are in UpdateWithoutChangesOnlyReads, UpdateRenamesIffNameChanged, UpdateOrder, UpdateEndsWithRead, UpdateStopsOnFailedSelectionMode, UpdateModePath and UpdateTagsOnly, and PortfolioResource.Update is proved equal to it |
| `PortfolioApi.DeleteRun` | sonarqube/resource_sonarqube_portfolio.go:309-329 | the definition (no contract of its own): Delete run against the server. Its properties are in DeleteSendsOneRequest, and PortfolioResource.Delete is proved equal to it |
| `PortfolioProperties.CsvOfNoTags` | sonarqube/resource_sonarqube_portfolio.go:139-143 | an empty tag list gives the empty tags parameter |
| `PortfolioProperties.CsvIsFieldsOfJoinedTags` | sonarqube/resource_sonarqube_portfolio.go:139-143 | when the space-joined tags start and end with a non-space and hold no bracket, the parameter is their white-space separated fields joined with "," |
| `PortfolioProperties.CleanTagsJoinEdges` | sonarqube/resource_sonarqube_portfolio.go:141-143 | a non-empty list of non-empty tags without white space or brackets, space-joined, starts and ends with a non-space and holds no bracket |
| `PortfolioProperties.CsvOfCleanTags` | sonarqube/resource_sonarqube_portfolio.go:139-143 | for non-empty tags without white space or brackets the parameter is the tags joined with "," |
| `PortfolioProperties.CsvSplitsTagAtSpace` | sonarqube/resource_sonarqube_portfolio.go:143 | a single tag made of two clean parts around one white-space character becomes those two parts, comma-separated |
| `PortfolioProperties.CleanAroundSpaceEdges` | sonarqube/resource_sonarqube_portfolio.go:143 | two clean tags around a bracket-free middle give a string with non-space ends and no bracket |
| `PortfolioProperties.FieldsAcrossOneSpace` | sonarqube/resource_sonarqube_portfolio.go:143 | strings.Fields splits two clean tags separated by one white-space character into those two tags |
| `PortfolioProperties.FieldsAcrossTwoSpaces` | sonarqube/resource_sonarqube_portfolio.go:143 | strings.Fields splits two clean tags separated by two spaces into those two tags |
| `PortfolioProperties.CsvDropsInnerEmptyTag` | sonarqube/resource_sonarqube_portfolio.go:143 | an empty tag between two others vanishes from the parameter ("a,b"), while a plain join with "," would give "a,,b" |
| `PortfolioProperties.CsvKeepsCommaOfLeadingEmptyTag` | sonarqube/resource_sonarqube_portfolio.go:143 | an empty first tag before a clean tag is not dropped: the parameter is "," followed by that tag |
| `PortfolioProperties.FieldsAfterLeadingEmptyTag` | sonarqube/resource_sonarqube_portfolio.go:143 | splitting the printed list ["", a] at white space gives the opening bracket alone, then a with the closing bracket |
| `PortfolioProperties.DispatchFailsExactlyOnRejectedModes` | sonarqube/resource_sonarqube_portfolio.go:80-87 | the dispatcher reports an unknown mode exactly for the values the selection_mode validator rejects |
| `PortfolioProperties.DispatchDecision` | sonarqube/resource_sonarqube_portfolio.go:119-175 | the dispatcher errs exactly on an unlisted mode; it sends nothing exactly when the mode is TAGS with branch and tags unchanged, REGEXP with branch and regexp unchanged, or REST with branch unchanged; NONE and MANUAL always send |
| `PortfolioProperties.DispatchedRequest` | sonarqube/resource_sonarqube_portfolio.go:120-185 | a dispatched request is a POST expecting 204; its path is the incoming path with one trailing "/" removed plus the mode's endpoint; its query is portfolio=key for NONE and MANUAL, branch, portfolio and tags for TAGS, branch, portfolio and regexp for REGEXP, and branch and portfolio for REST |
| `PortfolioProperties.DispatchSendsAtMostOne` | sonarqube/resource_sonarqube_portfolio.go:117-192 | the dispatcher sends at most one request and never changes the data; it fails exactly when the mode is unknown or its request fails |
| `PortfolioProperties.ReadReplacesState` | sonarqube/resource_sonarqube_portfolio.go:233-273 | Read sends one GET to api/views/show?key=id expecting 200; on a decoded response it replaces the id and all nine attributes, with desc stored as description; on a failed call or an undecodable body it returns the matching error and changes nothing |
| `PortfolioProperties.ReadIgnoresHeldAttributes` | sonarqube/resource_sonarqube_portfolio.go:233-273 | two resource data with the same id give the same requests, the same error and, on success, the same id and attributes: nothing held before Read survives it |
| `PortfolioProperties.DeleteSendsOneRequest` | sonarqube/resource_sonarqube_portfolio.go:309-329 | Delete sends one POST to api/views/delete?key=id expecting 204, changes nothing, and fails exactly when that call fails |
| `PortfolioProperties.CreateSendsCreateFirst` | sonarqube/resource_sonarqube_portfolio.go:194-215 | Create's first request is the POST to api/views/create with description, key, name and visibility expecting 200; if it fails nothing else is sent and nothing changes |
| `PortfolioProperties.CreatePlan` | sonarqube/resource_sonarqube_portfolio.go:216-231 | after a successful create call the dispatcher runs on the base URL. Any dispatcher error, including a failed set_*_mode request, ends Create with that error, no show request and the data unchanged. An undecodable body then ends Create with a decode error. Otherwise the id becomes the response's key and Read follows |
| `PortfolioProperties.CreateSkipsUnchangedTagsMode` | sonarqube/resource_sonarqube_portfolio.go:132-135 | on Create a TAGS portfolio with empty branch and no tags sends only the create and show requests |
| `PortfolioProperties.CreateTagsPortfolio` | sonarqube/resource_sonarqube_portfolio.go:194-231 | a TAGS portfolio with a branch and clean tags, against a server accepting all requests, sends create, then set_tags_mode with the tags joined by ",", then show for the response's key |
| `PortfolioProperties.UpdateWithoutChangesOnlyReads` | sonarqube/resource_sonarqube_portfolio.go:275-307 | an Update that changes only key, visibility or qualifier is exactly a Read and sends only the show request |
| `PortfolioProperties.UpdateRenamesIffNameChanged` | sonarqube/resource_sonarqube_portfolio.go:278-297 | the api/views/update POST carries key, description and name, never visibility, expects 200, and is sent (and sent first) exactly when name or description changed; its failure ends Update with nothing else sent |
| `PortfolioProperties.UpdateOrder` | sonarqube/resource_sonarqube_portfolio.go:275-307 | a successful Update sends the update call if name or description changed, then the dispatcher's request if selection_mode, branch, tags or regexp changed and its guard passes, then the show request |
| `PortfolioProperties.UpdateEndsWithRead` | sonarqube/resource_sonarqube_portfolio.go:275-307 | once the update call and the dispatcher have succeeded, Update's error and resulting data are Read's. Its requests are the update call if needed, then the dispatcher's request if one was issued, then Read's requests. This holds whether or not the final Read succeeds |
| `PortfolioProperties.UpdateStopsOnFailedSelectionMode` | sonarqube/resource_sonarqube_portfolio.go:299-304 | when the selection group changed and the dispatcher fails, Update returns its error wrapped as a selection-mode failure. This covers an unknown mode and a set_*_mode request the helper failed. Update sends nothing after the dispatcher, so no show request goes out, and it leaves the data unchanged |
| `PortfolioProperties.UpdateModePath` | sonarqube/resource_sonarqube_portfolio.go:279-300 | when name or description changed too, the selection-mode request's path is <base>/api/views/update followed by the mode's endpoint; otherwise it is <base> followed by the endpoint |
| `PortfolioProperties.UpdateTagsOnly` | sonarqube/resource_sonarqube_portfolio.go:132-148 | changing only the tags of a TAGS portfolio sends set_tags_mode and, if that succeeds, show; the update call is never sent |
| `PortfolioResource.ResourceData.SetId` | sonarqube/resource_sonarqube_portfolio.go:229 | only the id changes |
| `PortfolioResource.ResourceData.Set` | sonarqube/resource_sonarqube_portfolio.go:262-270 | only the named attribute of the configuration changes |
| `PortfolioResource.Provider.HttpRequest` | sonarqube/resource_sonarqube_portfolio.go:179-185 | the request is appended to the requests sent, and the reply is the server's answer to it |
| `PortfolioResource.SetSelectionMode` | sonarqube/resource_sonarqube_portfolio.go:117-192 | sends exactly the requests and returns exactly the error of DispatchRun for the current data and the given URL; the tag list is copied element by element first |
| `PortfolioResource.Read` | sonarqube/resource_sonarqube_portfolio.go:233-273 | sends the requests, returns the error and leaves the resource data that ReadRun describes |
| `PortfolioResource.Create` | sonarqube/resource_sonarqube_portfolio.go:194-231 | sends the requests, returns the error and leaves the resource data that CreateRun describes |
| `PortfolioResource.Update` | sonarqube/resource_sonarqube_portfolio.go:275-307 | sends the requests, returns the error and leaves the resource data that UpdateRun describes, including the dispatcher running on the rewritten URL |
| `PortfolioResource.UpdateSelectionAndRead` | sonarqube/resource_sonarqube_portfolio.go:299-306 | the part of Update after the update call: the dispatcher on the URL it is given when the selection group changed, its error wrapped, then Read |
| `PortfolioResource.Delete` | sonarqube/resource_sonarqube_portfolio.go:309-329 | sends the request and returns the error that DeleteRun describes, and leaves the resource data alone |
| `PortfolioResource.Import` | sonarqube/resource_sonarqube_portfolio.go:331-336 | exactly a Read, returning the resource data itself as the one imported resource on success and nothing on failure |

## Left out

- The HTTP transport and `httpRequestHelper` are not part of this model. A call is a `Request`
  (verb, URL, expected status, caller name). The server's answer is a function `server` from
  requests to replies: either a failure (transport error or unexpected status) or a body.
- JSON decoding is abstracted. A body is either a decoded `Portfolio` or malformed.
- `url.Values.Encode` and `url.URL.String` are abstracted: the query is a map from keys to single
  values, with no percent-encoding or key sorting.
- The error message texts, including Read's dump of the resource data, are abstracted into the
  constructors of `Error`. Each constructor keeps the helper's reason where the Go code wraps it.
  The validators' messages become `Rejection(key, value, accepted values)`.
- Schema defaults (visibility "public", selection_mode "NONE"), `ForceNew`, `Computed` and the
  `tags`/`regexp` `ConflictsWith` belong to the Terraform SDK. The model takes the configuration
  as the SDK hands it over.
- Resource registration (`resourceSonarqubePortfolio`), `defer resp.Body.Close()`, and the
  missing rollback after a partial failure are not modelled. Create and Update leave the server
  half-changed when a later call fails, and the model records only the requests sent.
- In the tags loop, `fmt.Sprint(v)` of each element is the identity, because the SDK stores tags
  as strings.
- `unicode.IsSpace` is Go's own test. A Go string is modelled as its code points, so invalid UTF-8
  bytes are not modelled.
- main.go (plugin start-up) and the acceptance-test harness are not part of this model.
