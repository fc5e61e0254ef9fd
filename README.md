# Marketo REST client, modelled in Dafny

This project models the core of a small PHP client for the Marketo REST API.

- **`Environment`** holds one Marketo instance's OAuth client id and secret, its Munchkin account id and the REST endpoint derived from that id. A process-wide slot holds the environment that `Environment::configure` installs.
- **`Client::send`** is the single exit to the network. It:
  - resolves the environment;
  - fetches an OAuth token;
  - flattens array-valued query entries into comma-joined text;
  - appends `access_token`;
  - builds the URL `endpoint/path?query`;
  - attaches a JSON or form-encoded body, for POST and DELETE only;
  - then returns the raw answer, wraps a successful envelope in a `Result`, or raises an error carrying the envelope's `errors`.
- **`Result` and `ListResult`** store the decoded envelope verbatim. They answer the request id and the paging entries. They read a response as one lead, or its records as lead-field descriptions.
- **The model classes** (`Model` and its subclasses) are read-only views of a record, with magic property access guarded by a declared field list.
- **The request builders** of `src/Model/` turn their arguments into one call of `send`: a method, a path and parameters. Keys are inserted into the query or body unconditionally, or only when a value is not null (`is_null`), or only when it is not empty (`empty`). Some builders refuse an oversized batch first, and one returns null without any request.

## How the model is built

- **`Php`**: PHP values are the datatype `Php.Val`. It has null, booleans, integers, strings, lists (`Arr`) and keyed arrays (`Obj`, a Dafny map).
  - The PHP semantics the builders' decisions depend on are defined here once: `is_null`, `empty`, truthiness, `isset($a[$k])` with PHP's rule that a list is addressed by decimal position keys, `count`, string conversion and `implode`.
- **`Client`**:
  - `Client.Codec` takes PHP's encoders (`http_build_query`, `json_encode`, `json_decode`) as function inputs. So does the network (`Client.Network`: the token fetch and the API request).
  - Every property of `send` therefore holds whatever the server answers and however those encoders lay out their text.
  - `Client.Exchange` is the pure reading of one `send`. It records the token URL fetched, the request transmitted and the outcome.
  - `Client.Send` is the imperative method: it reads the environment slot and runs the query-flattening loop. It is proved equal to `Exchange`.
- **`Environment`**: `Environment.Environment` is a class with the instance's settings. `Environment.EnvironmentSlot` is the static `$myself` field, which `Configure` overwrites.
- **Builders**:
  - Each builder returns a `Requests.Built`, which is one of:
    - the call it makes (`Sends`), with what it does with the answer (returns it as is, passes it to a view class's `manufacture`, or asks it for its next-page token);
    - `Rejected`: an exception before any request;
    - `Skipped`: null without a request.
  - Builders made of one array literal are functions. Builders that fill their array by successive conditional writes are methods with those writes as statements.
  - Their contracts are phrased through what `send` will make of the parameters: the caller query it flattens (`Requests.QueryOf`) and the body it actually transmits (`Requests.BodyOf`).
  - This means the contracts expose where a builder's parameters never reach the wire. Examples:
    - GET requests whose body is dropped;
    - parameters passed at the top level instead of under `query` or `body`;
    - a description written to an unused variable.
- **Quirks of the code are modelled as the code is written.** They are proved as properties, not corrected:
  - the doubled slash after the endpoint;
  - the doubled `rest/v1/` prefix in `Opportunity`;
  - `getCampaigns` writing every filter to the one key `id`;
  - `Model::__get` and `__isset` never answering, because `self::$fields` is the base class's empty list.

## Model

| member | source | states |
|---|---|---|
| Php.EmptyIsNotIsNull | src/Model/Activity.php:52-64 | The two insertion guards differ: `""`, `[]`, `0`, `"0"` and `false` are empty but not null, and every null is empty |
| Php.NatToString | src/Client.php:29-31 | A list position is rendered as a non-empty string of decimal digits |
| Php.NatToStringLeading | src/Client.php:29 | A rendered position only starts with `0` when it is 0 itself (no leading zeros) |
| Php.DigitsValueOfNatToString | src/Client.php:29 | Reading the digits of a rendered position back gives the position |
| Php.ListIndexOfNatToString | src/Model/Model.php:24 | The decimal key of a position addresses that position of a list |
| Php.NatToStringOfListIndex | src/Model/Model.php:24 | Every string key that addresses a list position is the canonical decimal text of that position (the converse direction) |
| Php.ListIndexOfNatToStringAll | src/Model/Model.php:24 | For all positions at once, the decimal key addresses exactly that position |
| Php.NatToStringInjective | src/Client.php:29 | Different positions get different keys |
| Php.Lookup | src/Result.php:13 | `$v[$key]` gives a keyed array's entry, null for a missing key, and null on anything that is not an array |
| Php.Count | src/Client.php:48 | On an array, `count` is zero exactly when the array is empty |
| Php.Texts | src/Client.php:31 | The texts `implode` joins are the items' string conversions, one per item, in order |
| Php.Join | src/Client.php:31 | Joining one text gives it back; joining none gives the empty string |
| Php.Split | src/Client.php:31 | Splitting a text at a separator gives at least one part (the inverse reference of `implode`) |
| Php.SplitOfJoin | src/Client.php:31 | Joining separator-free texts and splitting at the separator gives the texts back |
| Php.SplitImplode | src/Client.php:31 | `implode` of a non-empty list whose texts avoid the separator can be split back into those texts |
| Environment.EndpointFor | src/Environment.php:26 | The REST endpoint of an account is a non-empty URL that ends in `/` |
| Environment.EndpointForInjective | src/Environment.php:26 | Different Munchkin ids give different endpoints |
| Environment.Environment.constructor | src/Environment.php:21-27 | The new environment keeps the client id, secret and Munchkin id, and derives the endpoint from the Munchkin id |
| Environment.EnvironmentSlot.constructor | src/Environment.php:8 | The slot starts empty, so `currentEnvironment` is null until the first `configure` |
| Environment.EnvironmentSlot.Configure | src/Environment.php:29-35 | Afterwards the slot holds a fresh environment carrying exactly the given credentials, id and endpoint |
| Client.QuerySource | src/Client.php:28-29 | The entries the query loop visits: none when `query` is unset or null or not an array, a keyed array's own entries, and a list's items under their decimal positions |
| Client.PositionMapHasElements | src/Client.php:29 | A list seen as a keyed array has each item under its decimal position |
| Client.PositionMapOnlyPositions | src/Client.php:29 | A list seen as a keyed array has no other keys: each key is a decimal position holding that item |
| Client.FlattenValue | src/Client.php:30-35 | A query entry that is an array becomes a string; every other entry passes unchanged |
| Client.FlattenListRoundTrip | src/Client.php:31 | A non-empty list whose texts contain no comma is recovered, item by item, by splitting its flattened text at the commas |
| Client.WireQuery | src/Client.php:27-39 | The query on the wire has the caller's keys plus `access_token`. Each caller entry is flattened, and `access_token` is the fetched token's and replaces any caller entry of that name |
| Client.FlattenQuery | src/Client.php:27-37 | The query loop produces the same keys as the caller's query, each holding its flattened value |
| Client.RequestUrl | src/Client.php:41 | The request URL is endpoint, `/`, path, `?` and the encoded query. As the endpoint ends in a slash, the path always follows `/rest/v1//` |
| Client.TokenRequestUrl | src/Client.php:81-91 | The token is fetched from the account's `identity/oauth/token` URL with the encoded credentials grant |
| Client.TokenParams | src/Client.php:83-87 | The token request carries exactly grant type `client_credentials`, the client id and the secret |
| Client.ChooseBody | src/Client.php:48-55 | A JSON body is sent exactly when `body` is set with entries and the method is POST or DELETE. Failing that, a form body is sent exactly when `form-encode` qualifies. Any other method sends no body |
| Client.Decode | src/Client.php:59-66 | A failed transfer decodes to null |
| Client.Dispatch | src/Client.php:62-73 | raw flag ⇒ curl's answer unparsed; truthy `success` ⇒ a `Result` around the decoded envelope; otherwise an error with the envelope's `errors`. It never ends as a configuration error |
| Client.CurlFailureIsApiError | src/Client.php:59-73 | A failed transfer without the raw flag never reads as success: it ends in an error with null errors |
| Client.Exchange | src/Client.php:16-75 | A call fails with the configuration message exactly when no environment is resolved, and then touches nothing. Otherwise it fetches the token URL, transmits one request and dispatches on the answer |
| Client.ExchangeRequest | src/Client.php:25-57 | The transmitted request has the caller's method, the flattened query with the fetched `access_token`, the `/rest/v1//path` URL and the chosen body |
| Client.UnconfiguredIgnoresNetwork | src/Client.php:17-23 | Without an environment the outcome does not depend on anything the network would answer |
| Client.Send | src/Client.php:16-75 | `send` (with its loop and the slot lookup) behaves as `Exchange` on the argument environment, or else the configured one |
| Results.GetRequestId | src/Result.php:12-14 | The envelope's `requestId` entry, or null when it has none |
| Results.ReadLead | src/Result.php:16-24 | `lead()` is null exactly when some declared lead field is missing or null at the top level of the response; otherwise it is a lead view of the whole response |
| Results.NestedLeadIsNotALead | src/Result.php:17-21 | A response carrying its lead only under `result` is not read as a lead |
| ListResults.GetRequestId | src/ListResult.php:14-16 | The envelope's `requestId` entry, or null when absent |
| ListResults.GetNextPageToken | src/ListResult.php:35-37 | The envelope's `nextPageToken` entry, or null when absent |
| ListResults.GetMoreResult | src/ListResult.php:39-41 | The envelope's `moreResult` entry, or null when absent |
| ListResults.GetSuccess | src/ListResult.php:43-45 | The envelope's `success` entry, or null when absent |
| ListResults.Leads | src/ListResult.php:18-20 | `leads()` has no body: it answers null whatever the response |
| ListResults.Fields | src/ListResult.php:22-33 | All or nothing: null exactly when some record lacks `displayName`; otherwise one lead-field view per record, in order; an empty list gives an empty array |
| ModelBase.GetWith | src/Model/Model.php:23-27 | If the guard fails, `__get` yields null, whatever the declared list |
| ModelBase.Get | src/Model/Model.php:23-27 | `Model::__get` is null for every view and name, since `self::$fields` is the base class's empty list |
| ModelBase.IsSetProperty | src/Model/Model.php:32-34 | `Model::__isset` is false for every view and name |
| ModelBase.GuardFailsOnIdentifiers | src/Model/Model.php:24 | Even with a subclass's list of identifiers the guard fails for every name, since `isset` on a list only succeeds for a decimal position |
| ModelBase.ReadTargetIsNestedResult | src/Model/Model.php:24-25 | For every declared list, view and name that pass the guard, `__get` yields the name's entry inside the record's `result` entry |
| ModelBase.TopLevelIsNotRead | src/Model/Model.php:23-27 | A record with no `result` entry reads as null under every name and for every declared list, even when it holds that name at top level |
| ModelBase.GuardCanPass | src/Model/Model.php:24-25 | The guard is passable (a declared list holding `"0"`), and then a record holding `0` only at top level still reads as null |
| ModelBase.Manufacture | src/Model/Activity.php:28-36 | The `manufacture` loop gives one view of the class per record, in record order |
| Lead.GetLeadById | src/Model/Lead.php:23-25 | GET `lead/<id>.json` with only `fields` in the query. The empty `body` it passes is never transmitted |
| Lead.GetLeadsByFilterType | src/Model/Lead.php:27-41 | Refused with the batch-size message exactly when the batch exceeds 300. Otherwise GET `leads.json` with exactly the five entries, the page token included even when null |
| Lead.DescribeLead | src/Model/Lead.php:43-45 | GET `leads/describe.json` with no query and no body |
| Lead.DescribeLead2 | src/Model/Lead.php:47-49 | GET `leads/describe2.json` with no query and no body |
| Lead.Get | src/Model/Lead.php:51-56 | `Lead::__get` answers the stored entry, and is non-null exactly when that entry is set |
| Lead.DeclaredFieldsReadable | src/Model/Lead.php:8-15 | A response passing the lead presence check answers every declared field through `__get` |
| Requests.QueryReachesSend | src/Client.php:27-37 | For a query builder, `send` sees exactly its map as the caller query, and it transmits no body |
| Requests.BodyReachesSend | src/Client.php:48-51 | For a body builder, the body is transmitted as JSON exactly when it is non-null with entries and the method is POST or DELETE. It never adds to the query |
| Requests.BareSendsNothing | src/Client.php:27-55 | For a builder without parameters, neither a caller query nor a body is sent |
| Requests.GuardsDiffer | src/Model/Activity.php:52-64 | A value that is empty but not null is inserted under the `is_null` guard and left out under the `empty` guard |
| Activity.Manufacture | src/Model/Activity.php:28-36 | One activity view per record, in order |
| Activity.GetLeadActivities | src/Model/Activity.php:52-64 | GET `activities.json`. Token, type ids and batch size always; asset and lead ids exactly when not empty; list id exactly when not null; nothing else |
| Activity.GetDeletedLeads | src/Model/Activity.php:75-82 | GET `deletedleads.json` with exactly batch size and page token |
| Activity.AddCustomActivities | src/Model/Activity.php:92-94 | POST `activities/external.json` with the activities under `input` |
| Activity.CreateCustomActivityType | src/Model/Activity.php:109-122 | POST with all five type entries, and the description exactly when not empty |
| Activity.UpdateCustomActivityType | src/Model/Activity.php:137-149 | As creation, posted to the type's own path |
| Activity.ApproveCustomActivityType | src/Model/Activity.php:159-161 | POST to the type's `approve.json` with no body |
| Activity.CreateCustomActivityTypeAttributes | src/Model/Activity.php:172-174 | POST to the type's `create.json` with the attributes under `attributes` |
| Activity.DeleteCustomActivityTypeAttributes | src/Model/Activity.php:185-188 | POST to `attributes/delete.json` with the attributes under `attributes` |
| Activity.UpdateCustomActivityTypeAttributes | src/Model/Activity.php:199-202 | POST to `attributes/update.json` with the attributes under `attributes` |
| Activity.DeleteCustomActivityType | src/Model/Activity.php:212-214 | POST to the type's `delete.json` with no body |
| Activity.DescribeCustomActivityType | src/Model/Activity.php:225-227 | GET the type's `describe.json` with only `draft` in the query |
| Activity.DiscardCustomActivityTypeDraft | src/Model/Activity.php:237-239 | POST to the type's `discardDraft.json` with no body |
| Activity.TypePathInjective | src/Model/Activity.php:137-239 | Two type API names with the same path have the same text, so the path names the type |
| Activity.GetCustomActivityTypes | src/Model/Activity.php:247-249 | GET `activities/external/types.json` with no query |
| Activity.GetLeadChanges | src/Model/Activity.php:263-274 | GET `activities/leadchanges.json`. Token, fields and batch size always; list id exactly when not null; lead ids exactly when not empty |
| Activity.GetPagingToken | src/Model/Activity.php:284-286 | GET `activities/pagingtoken.json` with only `sinceDatetime`. The answer is then asked for `getNextPageToken()` (tagged `NextPageTokenOf`) |
| Activity.GetActivityTypes | src/Model/Activity.php:294-296 | GET `activities/types.json` with no query |
| Activities.GetLeadActivities | src/Model/Activities.php:14-26 | GET `activities.json`. Token, type ids and batch size always; asset, list and lead ids exactly when not empty |
| Activities.GetDeletedLeads | src/Model/Activities.php:34-41 | GET `deletedleads.json` with exactly batch size and page token |
| Activities.AddCustomActivities | src/Model/Activities.php:49-51 | POST `activities/external.json`. The argument is the whole body, sent exactly when it has entries |
| Activities.CreateCustomActivityType | src/Model/Activities.php:59-61 | POST `activities/external/type.json` with the definition as the whole body |
| Activities.UpdateCustomActivityType | src/Model/Activities.php:69-71 | POST to the type's path with the definition as the whole body |
| Activities.ApproveCustomActivityType | src/Model/Activities.php:78-80 | POST to the type's `approve.json` with no body |
| Activities.CreateCustomActivityTypeAttributes | src/Model/Activities.php:88-90 | POST to the type's `create.json` with the attributes as the whole body |
| Activities.DeleteCustomActivityTypeAttributes | src/Model/Activities.php:98-100 | POST to `attributes/delete.json` with the attributes as the whole body |
| Activities.UpdateCustomActivityTypeAttributes | src/Model/Activities.php:108-110 | POST to `attributes/update.json` with the attributes as the whole body |
| Activities.DeleteCustomActivityType | src/Model/Activities.php:117-119 | POST to the type's `delete.json` with no body |
| Activities.DescribeCustomActivityType | src/Model/Activities.php:127-129 | GET the type's `describe.json` with only `draft` |
| Activities.DiscardCustomActivityTypeDraft | src/Model/Activities.php:137-139 | POST to the type's `discardDraft.json` with no body |
| Activities.GetCustomActivityTypes | src/Model/Activities.php:147-149 | GET `activities/external/types.json` with no query |
| Activities.GetLeadChanges | src/Model/Activities.php:157-168 | GET `activities/leadchanges.json`. Token, fields and batch size always; list and lead ids exactly when not empty |
| Activities.GetPagingToken | src/Model/Activities.php:176-178 | GET `activities/pagingtoken.json` with only `sinceDatetime`, answer returned as is |
| Activities.GetActivityTypes | src/Model/Activities.php:186-188 | GET `activities/types.json` with no query |
| BulkExportLead.Manufacture | src/Model/BulkExportLead.php:26-34 | One export view per record, in order |
| BulkExportLead.GetExportLeadJobs | src/Model/BulkExportLead.php:47-55 | GET the export list with batch size, and the page token exactly when not null. The status filter is never sent |
| BulkExportLead.CreateExportLeadJob | src/Model/BulkExportLead.php:71-81 | POST a JSON body with filter and format always, and header names and fields exactly when not empty |
| BulkExportLead.CancelExportLeadJob | src/Model/BulkExportLead.php:91-93 | POST the job's `cancel.json` with no body |
| BulkExportLead.EnqueueExportLeadJob | src/Model/BulkExportLead.php:104-106 | POST the job's `enqueue.json` with no body |
| BulkExportLead.GetExportLeadFile | src/Model/BulkExportLead.php:118-120 | GET the job's `file.json`, answer returned as is |
| BulkExportLead.GetExportLeadJobStatus | src/Model/BulkExportLead.php:130-132 | GET the job's `status.json` |
| BulkExportProgramMember.Manufacture | src/Model/BulkExportProgramMember.php:26-34 | One export view per record, in order |
| BulkExportProgramMember.GetExportProgramMemberJobs | src/Model/BulkExportProgramMember.php:47-56 | GET the export list with batch size and status always, and the page token exactly when one is given |
| BulkExportProgramMember.StatusListIsJoined | src/Model/BulkExportProgramMember.php:47-56 | The status list reaches the wire as its comma-joined text |
| BulkExportProgramMember.CreateExportProgramMemberJob | src/Model/BulkExportProgramMember.php:67-79 | POST `{filter: {programId}, format, fields}`, with header names exactly when not null |
| BulkExportProgramMember.CancelExportProgramMemberJob | src/Model/BulkExportProgramMember.php:87-89 | POST the job's `cancel.json` with no body |
| BulkExportProgramMember.EnqueueExportProgramMemberJob | src/Model/BulkExportProgramMember.php:98-100 | POST the job's `enqueue.json` with no body |
| BulkExportProgramMember.GetExportProgramMemberFile | src/Model/BulkExportProgramMember.php:110-112 | GET the job's `file.json` asking for the raw answer |
| BulkExportProgramMember.FileBypassesDispatch | src/Model/BulkExportProgramMember.php:110-112 | The file's text is returned unparsed, whatever it holds |
| BulkExportProgramMember.GetExportProgramMemberJobStatus | src/Model/BulkExportProgramMember.php:120-122 | GET the job's `status.json` |
| CustomObject.Manufacture | src/Model/CustomObject.php:22-30 | One custom-object view per record, in order |
| CustomObject.ListCustomObjects | src/Model/CustomObject.php:40-52 | No parameters at all when the names are empty; otherwise the names are the only query entry |
| CustomObject.GetCustomObjects | src/Model/CustomObject.php:75-86 | Its entries are batch size and name always, page token and filter type exactly when not null, and fields exactly when not empty. They are passed at the top level, so no query and no body reach the wire |
| CustomObject.ListCustomObjectTypes | src/Model/CustomObject.php:99-107 | GET the schema list with the state, and the names exactly when not empty |
| CustomObject.SyncCustomObjects | src/Model/CustomObject.php:112-121 | Its entries are action and records always, dedupe key exactly when not null. They are passed at the top level, so the POST carries no body |
| CustomObject.OnlyTokenOnWire | src/Model/CustomObject.php:75-121 | Parameters with no `query` entry put only the access token on the wire |
| SalesPersons.Manufacture | src/Model/SalesPersons.php:23-31 | One sales-person view per record, in order |
| SalesPersons.GetSalesPersons | src/Model/SalesPersons.php:45-56 | GET with batch size, filter type and values always; fields exactly when not empty; page token exactly when not null |
| SalesPersons.SyncSalesPersons | src/Model/SalesPersons.php:68-76 | POST `{input, action, dedupeBy}` as JSON |
| SalesPersons.DeleteSalesPersons | src/Model/SalesPersons.php:87-94 | POST `{input, deleteBy}` as JSON |
| SalesPersons.DescribeSalesPersons | src/Model/SalesPersons.php:102-104 | GET `describe.json` with no query |
| SmartList.Manufacture | src/Model/SmartList.php:20-28 | One smart-list view per record, in order |
| SmartList.GetSmartListById | src/Model/SmartList.php:39-45 | GET the list by its decimal id with only `includeRules` |
| SmartList.GetSmartListByName | src/Model/SmartList.php:55-61 | GET `byName.json` with only the name |
| SmartList.DeleteSmartList | src/Model/SmartList.php:71-73 | POST the list's `delete.json`, answer returned as is |
| SmartList.GetSmartLists | src/Model/SmartList.php:87-98 | Page size and offset always; folder and the two update-time bounds exactly when given |
| SmartList.CloneSmartList | src/Model/SmartList.php:108-117 | POST exactly `{name, folder}`. A given description never reaches the body |
| StaticLists.Manufacture | src/Model/StaticLists.php:26-34 | One static-list view per record, in order |
| StaticLists.CreateStaticList | src/Model/StaticLists.php:36-51 | POST a form-encoded body with the name, the folder reference as JSON text, and the description exactly when not null. There is no query |
| StaticLists.GetStaticListById | src/Model/StaticLists.php:53-55 | GET the list's own path with no query |
| StaticLists.UpdateStaticListMetadata | src/Model/StaticLists.php:57-66 | Null without a request exactly when name and description are both null. Otherwise POST JSON with each of them exactly when not null |
| StaticLists.GetStaticLists | src/Model/StaticLists.php:68-78 | GET with each of folder, offset, page size and the two time bounds exactly when not null |
| StaticLists.GetStaticListByName | src/Model/StaticLists.php:80-82 | GET `byName.json` with only the name |
| StaticLists.DeleteStaticList | src/Model/StaticLists.php:84-86 | POST the list's `delete.json`, answer returned as is |
| Folders.Manufacture | src/Model/Folders.php:33-41 | One view per record, in order, each a static-list view |
| Folders.GetFolderByName | src/Model/Folders.php:43-53 | GET with the name always, and type, root and workspace exactly when not null |
| Folders.GetFolderById | src/Model/Folders.php:55-61 | GET the folder's path with only the type (`Folder` by default) |
| Folders.UpdateFolderMetadata | src/Model/Folders.php:63-73 | POST JSON with the type always, and name, archive flag and description exactly when not null |
| Folders.GetFolderContents | src/Model/Folders.php:75-84 | GET contents with type and page size always, and the offset exactly when not null |
| Folders.DeleteFolder | src/Model/Folders.php:86-88 | POST the folder's `delete.json` with exactly `{type}` |
| Folders.GetFolders | src/Model/Folders.php:90-101 | GET `folders.json` with depth, page size and offset always, and root and workspace exactly when not null |
| Folders.CreateFolder | src/Model/Folders.php:103-112 | POST JSON with the name always, and parent and description exactly when not null |
| Campaign.Manufacture | src/Model/Campaign.php:29-37 | One campaign view per record, in order |
| Campaign.LastNonEmptyIsLast | src/Model/Campaign.php:59-63 | What the overwrites leave is absent exactly when every filter is empty. Otherwise it is a non-empty filter followed only by empty ones |
| Campaign.FiltersInOrder | src/Model/Campaign.php:59-63 | The five writes, applied one after another, leave the last non-empty filter under `id` |
| Campaign.WritesCarry | src/Model/Campaign.php:54-63 | The query the writes build holds batch size, triggerable flag and that last filter, and nothing else |
| Campaign.GetCampaigns | src/Model/Campaign.php:53-66 | GET `campaigns.json` with batch size and triggerable flag always. `id` is present exactly when some filter is non-empty, and then holds the last non-empty one among id, name, program, workspace and page token |
| Campaign.DefaultsSendNoFilter | src/Model/Campaign.php:53 | With every filter at its default, no `id` entry is sent: the empty default page token is not written |
| Campaign.PageTokenOverridesFilters | src/Model/Campaign.php:63 | A non-empty page token is what `id` carries, whatever the other filters |
| Campaign.NameReplacesId | src/Model/Campaign.php:59-60 | A non-empty name given with a non-empty id replaces it under `id` |
| Campaign.GetCampaignById | src/Model/Campaign.php:75-77 | GET the campaign's path with no query |
| Campaign.ScheduleCampaign | src/Model/Campaign.php:90-93 | POST the campaign's `schedule.json` with the data under `input` |
| Campaign.RequestCampaign | src/Model/Campaign.php:106-109 | POST the campaign's `trigger.json` with the data under `input` |
| Opportunity.GetOpportunityFieldByName | src/Model/Opportunity.php:50-52 | GET the field's schema path, which starts with `rest/v1/` |
| Opportunity.GetOpportunityFields | src/Model/Opportunity.php:63-77 | Refused exactly when the batch exceeds 300. Otherwise batch size always and page token exactly when not null |
| Opportunity.GetOpportunities | src/Model/Opportunity.php:91-104 | The body holds batch size, fields, filter type and input, and the page token exactly when not null. As the method is GET, neither query nor body reaches the wire |
| Opportunity.SyncOpportunities | src/Model/Opportunity.php:116-124 | POST `{input, action, dedupeBy}` as JSON |
| Opportunity.DeleteOpportunities | src/Model/Opportunity.php:136-146 | POST JSON with the ids under `input`, and `deleteBy` exactly when not null |
| Opportunity.DescribeOpportunity | src/Model/Opportunity.php:154-156 | GET the describe path with no query |
| Opportunity.GetOpportunityRoles | src/Model/Opportunity.php:164-184 | Refused exactly when the batch exceeds 300. Otherwise a body with batch size, filter type and values, plus fields and page token exactly when not null; none of it reaches the wire, and the lookup request is never used |
| Opportunity.SyncOpportunityRoles | src/Model/Opportunity.php:196-204 | POST `{input, action, dedupeBy}` as JSON to `roles.json` |
| Opportunity.DeleteOpportunityRoles | src/Model/Opportunity.php:215-225 | POST JSON with `input`, and `deleteBy` exactly when not null |
| Opportunity.DescribeOpportunityRole | src/Model/Opportunity.php:233-235 | GET the roles describe path with no query |
| Opportunity.DoublePrefix | src/Model/Opportunity.php:154-156 | These paths reach the server with `rest/v1/` twice, since the endpoint already ends in it |
| Opportunity.Manufacture | src/Model/Opportunity.php:32-40 | One opportunity view per record, in order |
| Opportunities.GetOpportunityFieldByName | src/Model/Opportunities.php:16-18 | GET the field's schema path, answer returned as is |
| Opportunities.GetOpportunityFields | src/Model/Opportunities.php:27-41 | Refused exactly when the batch exceeds 300. Otherwise batch size always and page token exactly when not null |
| Opportunities.GetOpportunities | src/Model/Opportunities.php:50-63 | The filter values are passed as `input` in a body that a GET never transmits |
| Opportunities.SyncOpportunities | src/Model/Opportunities.php:72-80 | POST `{input, action, dedupeBy}` as JSON |
| Opportunities.DeleteOpportunities | src/Model/Opportunities.php:88-98 | POST JSON with the ids under `input`, and `deleteBy` exactly when not null |
| Opportunities.DescribeOpportunity | src/Model/Opportunities.php:106-108 | GET `opportunities/describe.json` with no query |
| Opportunities.GetOpportunityRoles | src/Model/Opportunities.php:116-136 | Refused exactly when the batch exceeds 300. Otherwise a GET body with the filter entries, never transmitted |
| Opportunities.SyncOpportunityRoles | src/Model/Opportunities.php:144-152 | POST `{input, action, dedupeBy}` as JSON to `roles.json` |
| Opportunities.DeleteOpportunityRoles | src/Model/Opportunities.php:160-170 | POST JSON with `input`, and `deleteBy` exactly when not null |
| Opportunities.DescribeOpportunityRole | src/Model/Opportunities.php:178-180 | GET `opportunities/roles/describe.json` with no query |

## Left out

- **HTTP headers:** the caller's `$headers` argument of `send` (src/Client.php:16,57) is not modelled. It is passed only once in the core, as `[]` (src/Model/BulkExportProgramMember.php:111). The `Content-Type` header `send` adds is not modelled either. The custom-request verb and the URL are part of the transmitted `Client.HttpRequest`, and the response text is an input (`Client.Network`).
- **`http_build_query`, `json_encode`, `json_decode` and `implode` on a keyed array:** these are abstract functions (`Client.Codec`). They depend on key insertion order, which the model does not keep, since keyed arrays are Dafny maps.
- **PHP's rendering of booleans and nested arrays in a query string:** this lives inside the abstract `buildQuery`.
- **`Result::getResults`:** it is not defined by `Result`, so every `manufacture` would fail when called. The records it would give are an abstract sequence argument, and the `Wrap` tag of a builder records which class's `manufacture` the answer is passed to.
- **Record listing for responses other than lists:** `foreach` over a `result` entry that is a keyed array or a scalar is taken to visit nothing.
- **Reading an index of a string:** `Php.Lookup` gives null for any scalar, where PHP would give a one-character string.
- **Loose comparison:** `in_array` is taken strictly. The `$batchSize > 300` test is taken on integers, so the batch size of `Lead`, `Opportunity` and `Opportunities` is an `int`.
- **`count` on non-arrays:** it follows PHP 7 (a scalar counts as 1), not PHP 8's error.
- **PHP integer width:** integers are unbounded, and no operation of the core does arithmetic whose width matters.
- **Class-loading and call-time errors that PHP would raise before any of the modelled behaviour:** these are listed here; the rest of the model behaves as if they were absent.
  - `Result::lead` calls the protected `Model` constructor from outside the hierarchy.
  - `Lead` redeclares `$values` as private.
  - `Lead`'s constructor is misspelt `__constuct`, so it never runs.
  - `Lead` and `Opportunities` throw an unqualified `Exception` inside a namespace, which names a class that does not exist. It is modelled as the rejection it was meant to be.
- **Activity.GetPagingToken:** `send` returns a `Result` (src/Client.php:69), and `Result` defines no `getNextPageToken` (src/Result.php:12-24). The call at src/Model/Activity.php:285 therefore fails after the request. The `NextPageTokenOf` tag records the intended call, not that failure.
- **Opportunity.GetOpportunityFieldByName:** `LeadField` defines no `manufacture` (src/Model/LeadField.php:21 is its only method). The call at src/Model/Opportunity.php:51 therefore fails after the request. The `Manufactured(LeadFieldKind)` tag records the intended call.
- **Opportunity.GetOpportunityFields:** the same undefined `LeadField::manufacture`, called at src/Model/Opportunity.php:76. The tag records the intended call.
- **Results.ReadLead:** `Result` names `Lead` inside namespace `WorldNewsGroup\Marketo` without a `use` (src/Result.php:17,23). That class does not exist, so `lead()` fails in PHP before any check. The model reads the check and the view as intended, with `Lead` taken to be the lead model class.
- **Environment credentials:** the constructor and `configure` take untyped parameters (src/Environment.php:21,29). The model takes the client id, secret and Munchkin id to be strings, which is what the `.` concatenation of the endpoint renders them as.
- **PHP-typed parameters:** `BulkExportProgramMember` and `SmartList` declare typed parameters (`int`, `Array`, `string`, nullable `string`). No core file declares `strict_types`, so PHP coerces scalar arguments to the declared `int`/`string` (`"12"` becomes `12`, `7` becomes `"7"`). It rejects an `Array` mismatch, or a value it cannot coerce, with a `TypeError`. The model takes the parameters after that coercion, as Dafny `int`, `string` and `Option<string>`, or `Val` with a `requires IsArray(...)`. It does not represent the `TypeError`.
- **Value-only view classes** with no behaviour beyond `Model`: `ActivityType`, `CustomActivity`, `LeadChange`, `Export`, `ObjectMetaData`, `StaticList` and the others. They appear only as `ModelBase.Kind` tags.
- **The other model files:** `LeadField`, `LeadPartition`, `ProgramMembership`, `Usage`, `ProgramMember` and `BulkExportLeads` are not part of this model. Neither is the formatting of the `ErrorException` message.
- **The test suite:** not part of this model.
- **Client.QuerySource:** states which entries are visited, not that a list yields as many entries as it has items. `Client.PositionMapHasElements` and `Client.PositionMapOnlyPositions` state that separately.
- **ModelBase.Manufacture:** this and every class's `Manufacture` take the records as given, because `getResults` is undefined (see above).
