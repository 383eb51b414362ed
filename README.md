# PocketBase.Blazor — a Dafny model of its cron runtime and client core

PocketBase.Blazor is a .NET client for the PocketBase backend. It comes with
a small Go cron server that lets the client register scheduled jobs at run
time. This project models the parts of the repository that decide what
happens, not how bytes travel:

- **The Go cron registration runtime, in its three variants.**
  - `cron-server/cron/runtime.go` stores the payload, then removes and re-adds the job. Its job closure reads the payload stored at the moment it fires.
  - `pocketbase-crons/cron_runtime.go` does the same without storing a payload.
  - `pocketbase-server/cron.go` installs the handler itself as the job.

  Beside them are the string-keyed handler `Registry` with `Dispatch`, and the example handlers of the cron server.
- **The C# generator that writes that Go server** (`CronGenerator.cs`). It models the order of the generation steps, the default handler bodies, the deduplicated and sorted imports, the `indent` filter, and the exit codes it accepts from the `go` tool.
- **The request options and their `BuildQuery` overrides.** An options object holds a query dictionary shared by reference, and `BuildQuery` writes into it. The model also covers the extension methods that copy options into a query dictionary.
- **`BaseClient`.** Its CRUD requests and the `GetFullListAsync` page loop.
- **The remaining clients:** batch, files, admins, settings and crons.
- **The realtime clients.** The server-sent-events reader, the connection events PB_CONNECT and PB_DISCONNECT, the topic registry with its dispatch, and the subscription handles.
- **`HttpTransport`.** URL and query-string building, the authorization header and the status-to-result mapping.
- **The authentication stores and the multipart file.**
- **The hosting layer.**
  - The Go binary resolver: platform names, the cache path and the download URL.
  - `PocketBaseHost`: its base URL and command line.
  - The schema-template migration writer.
  - `PocketBaseHostBuilder`: environment variables, configuration files and `BuildAsync`.

Some things are not computed by the model and are taken as parameters instead:
- the network, the file system, processes and the clock;
- JSON and XML parsing;
- percent-encoding;
- the external cron scheduler's expression parser.

Objects whose fields the source updates in place are classes. Their methods
are proved against functions of the old state. Pure logic is functions, with
lemmas beside them.

## Model

| member | source | states |
|---|---|---|
| `Scheduling.Scheduler.Remove` | cron-server/cron/runtime.go:19 | the job under the id is gone and every other job is kept |
| `Scheduling.Scheduler.Add` | cron-server/cron/runtime.go:21-27 | an accepted expression replaces the job under the id; a rejected one changes nothing |
| `Scheduling.Scheduler.FireJob` | cron-server/cron/runtime.go:21-27 | firing runs the job function of the id against the payload store as it is at that moment, or does nothing when no job has the id |
| `Scheduling.RunJob` | cron-server/cron/runtime.go:22-26 | a payload-reading closure calls its handler with the payload stored under its id, nil reading as empty; an installed handler gets no payload |
| `Scheduling.StoredBeforeAddedAppend` | cron-server/cron/runtime.go:15-27 | appending store, remove and add under one id keeps every `Add` in the log preceded by a payload store under that id |
| `CronServerRuntime.RegisterUnknownId` | cron-server/cron/runtime.go:10-13 | an id without a handler returns "unknown cron id: " + id and touches neither the payload store nor the scheduler |
| `CronServerRuntime.RegisterKnownId` | cron-server/cron/runtime.go:15-29 | a known id returns no error and stores its payload; its one job is installed exactly when the scheduler accepts the expression; other ids keep their jobs and payloads |
| `CronServerRuntime.RegisterTwice` | cron-server/cron/runtime.go:15-27 | registering an id twice leaves the state that registering only the second request leaves |
| `CronServerRuntime.InstalledJobReadsPayloadWhenFired` | cron-server/cron/runtime.go:21-26 | the installed job calls the handler looked up at registration, with the payload stored when it fires, whatever was stored later |
| `CronServerRuntime.RegisterKeepsJobsReadingOwnPayload` | cron-server/cron/runtime.go:15-27 | registration keeps every scheduled job a closure over its own id with a payload stored for it |
| `CronServerRuntime.Runtime.RegisterHandler` | src/PocketBase.Blazor/Clients/Crons/CronGenerator.cs:140-142 | the last handler registered under an id wins and nothing else changes |
| `CronServerRuntime.Runtime.RegisterCron` | cron-server/cron/runtime.go:9-30 | the new state and error are those of `Register`; the ghost log grows by store, remove and add, in that order; the invariant that every add follows a store is kept |
| `CronServerRuntime.Runtime.Fire` | cron-server/cron/runtime.go:21-27 | a firing reads the current payload store |
| `PocketbaseCronsRuntime.RegisterUnknownId` | pocketbase-crons/cron_runtime.go:10-13 | an unknown id returns the error and leaves the jobs as they were |
| `PocketbaseCronsRuntime.RegisterKnownId` | pocketbase-crons/cron_runtime.go:15-25 | a known id returns no error; a job is under it exactly when the expression is accepted; other jobs are kept |
| `PocketbaseCronsRuntime.JobReadsUnwrittenStore` | pocketbase-crons/cron_runtime.go:17-23 | the job reads a payload store that this variant never writes, so with an empty store the handler gets the empty payload |
| `PocketbaseCronsRuntime.Runtime.RegisterCron` | pocketbase-crons/cron_runtime.go:9-26 | the jobs and error are those of `Register`; no payload is stored |
| `PocketbaseCronsRuntime.Runtime.Fire` | pocketbase-crons/cron_runtime.go:17-23 | a firing reads the current payload store |
| `PocketbaseServerCron.CronHandlers` | pocketbase-server/cron_registry.go:11-18 | the generated table has exactly the handlers "hello" and "reindex" |
| `PocketbaseServerCron.RegisterUnknownId` | pocketbase-server/cron.go:15-18 | an unknown id is reported by name and the jobs are untouched |
| `PocketbaseServerCron.RegisterKnownId` | pocketbase-server/cron.go:20-23 | a known id gets the handler itself as its job, which fires with no payload, exactly when the expression is accepted |
| `PocketbaseServerCron.Runtime.RegisterCron` | pocketbase-server/cron.go:14-24 | the scheduler's jobs and the error are those of `Register` |
| `PocketbaseServerHandlers.Registry.RegisterHandler` | pocketbase-server/handlers.go:12-14 | the last handler registered under an id wins |
| `PocketbaseServerHandlers.Registry.Dispatch` | pocketbase-server/handlers.go:17-31 | an unknown id and an undecodable payload are reported; otherwise the registered handler is called with the decoded payload |
| `CronExampleHandlers.ExampleHandlers` | cron-server/cron/handlers.go:11-73 | exactly "hello", "cleanup" and "db-dump" are registered |
| `CronExampleHandlers.RegisterExampleHandlers` | cron-server/cron/handlers.go:11-73 | start-up adds those three handlers to the registry and nothing else |
| `CronExampleHandlers.GreetedName` | cron-server/cron/handlers.go:16-21 | the payload's non-empty "name" string, otherwise "World!"; never empty |
| `CronExampleHandlers.StartCount` | cron-server/cron/handlers.go:17-25 | the payload's numeric "count", otherwise 0 |
| `CronExampleHandlers.Hello` | cron-server/cron/handlers.go:12-34 | six log lines greeting `GreetedName`; the k-th count is the start count plus 10·(k+1) |
| `CronExampleHandlers.Cleanup` | cron-server/cron/handlers.go:36-38 | one fixed log line, whatever the payload |
| `CronExampleHandlers.StringElementsMembers` | cron-server/cron/handlers.go:58-64 | a string is collected exactly when the array holds it as a JSON string |
| `CronExampleHandlers.StringElementsAppend` | cron-server/cron/handlers.go:58-64 | collecting distributes over concatenation, so array order is kept |
| `CronExampleHandlers.StringElementsOfStrings` | cron-server/cron/handlers.go:58-64 | an array of strings only gives back all of them |
| `CronExampleHandlers.RequestedTables` | cron-server/cron/handlers.go:57-64 | the string elements of an array "tables", in order, otherwise none; `db-dump` computes this list but never uses it |
| `CronExampleHandlers.OutputPath` | cron-server/cron/handlers.go:41-47 | the payload's non-empty "output_dir" string, otherwise "./dump.sql" |
| `CronExampleHandlers.DbDump` | cron-server/cron/handlers.go:40-72 | a needed directory that cannot be made ends the run; otherwise sqlite3 dumps `./pb_data/data.db` whole into the chosen path; the requested tables are computed but are not passed to the command |
| `CronGenerator.DefaultGenerationOptions` | src/PocketBase.Blazor/Options/CronGenerationOptions.cs:8-28 | the defaults are "internal/crons", build on, "go", clean on |
| `CronGenerator.StepError` | src/PocketBase.Blazor/Clients/Crons/CronGenerator.cs:275-332 | a run fails when it cannot start or when its exit code is not accepted; `mod init` also accepts 1 |
| `CronGenerator.BuildGoBinary` | src/PocketBase.Blazor/Clients/Crons/CronGenerator.cs:261-333 | `mod init`, `mod tidy` and `build` run in that order up to the first failure, which is the exception; success exactly when every run is accepted |
| `CronGenerator.RunSteps` | src/PocketBase.Blazor/Clients/Crons/CronGenerator.cs:38-41 | one `go` step per command, in order |
| `CronGenerator.Generate` | src/PocketBase.Blazor/Clients/Crons/CronGenerator.cs:20-42 | a null manifest or null options throw before anything happens; otherwise clean, write the files, then build when asked |
| `CronGenerator.GenerateOrder` | src/PocketBase.Blazor/Clients/Crons/CronGenerator.cs:28-41 | the directory is deleted only first and only when cleaning is on and it exists; the handlers are always written; the build comes last |
| `CronGenerator.HandlerBody` | src/PocketBase.Blazor/Clients/Crons/CronGenerator.cs:221-223 | the cron's body unless it is null or blank, else a line logging the id and payload |
| `CronGenerator.PackagesOfComplete` | src/PocketBase.Blazor/Clients/Crons/CronGenerator.cs:225-229 | every non-blank import entry contributes its trimmed text |
| `CronGenerator.PackagesOfSound` | src/PocketBase.Blazor/Clients/Crons/CronGenerator.cs:225-229 | every imported package comes from some non-blank entry |
| `CronGenerator.AddPackages` | src/PocketBase.Blazor/Clients/Crons/CronGenerator.cs:225-229 | the `HashSet.Add` loop keeps the set duplicate-free and adds exactly the requested packages |
| `CronGenerator.PrepareHandlers` | src/PocketBase.Blazor/Clients/Crons/CronGenerator.cs:216-240 | one processed entry per cron, in manifest order; the imports are "log" plus every requested package, once each, strictly ascending |
| `CronGenerator.Prefixed` | src/PocketBase.Blazor/Clients/Crons/CronGenerator.cs:249 | every line gets the prefix |
| `CronGenerator.IndentLines` | src/PocketBase.Blazor/Clients/Crons/CronGenerator.cs:242-252 | the indented text has the same lines, each with n spaces in front |
| `Ordering.LessIrreflexive` | src/PocketBase.Blazor/Clients/Crons/CronGenerator.cs:239 | the ordinal order used for the imports is irreflexive |
| `Ordering.LessTransitive` | src/PocketBase.Blazor/Clients/Crons/CronGenerator.cs:239 | it is transitive |
| `Ordering.LessTotal` | src/PocketBase.Blazor/Clients/Crons/CronGenerator.cs:239 | any two distinct strings are ordered |
| `Ordering.Sort` | src/PocketBase.Blazor/Clients/Crons/CronGenerator.cs:239 | `OrderBy` gives an ascending permutation of its input |
| `Ordering.SortDistinct` | src/PocketBase.Blazor/Clients/Crons/CronGenerator.cs:239 | sorting distinct packages gives a strictly ascending list |
| `Options.Dictionary.Set` | src/PocketBase.Blazor/Options/CommonOptions.cs:14 | the indexer adds or overwrites one key |
| `Options.DefaultQuery` | src/PocketBase.Blazor/Options/SendOptions.cs:12-18 | exactly "page" and "perPage", with the given values |
| `Options.CommonEntries` | src/PocketBase.Blazor/Options/CommonOptions.cs:9-18 | "fields" is written when Fields is not null or empty |
| `Options.PutIfNotBlank` | src/PocketBase.Blazor/Options/FileOptions.cs:15-22 | a key is written when its value is not null or white space |
| `Options.ExtendKeepsBase` | src/PocketBase.Blazor/Options/FileOptions.cs:11-25 | `BuildQuery` only adds keys of its own override and keeps every other entry |
| `Options.ExtendFields` | src/PocketBase.Blazor/Options/CommonOptions.cs:11-17 | "fields" holds Fields exactly when it is not null or empty, white space included |
| `Options.FileKeys` | src/PocketBase.Blazor/Options/FileOptions.cs:15-22 | thumb, token and download are each written exactly when not null or white space |
| `Options.RecordExpand` | src/PocketBase.Blazor/Options/RecordOptions.cs:9-17 | "expand" is written exactly when Expand is not null or empty |
| `Options.ExtendIdempotent` | src/PocketBase.Blazor/Options/RecordOptions.cs:9-17 | building again on the dictionary the first call filled changes nothing |
| `Options.SendOptions.SendBuildQuery` | src/PocketBase.Blazor/Options/SendOptions.cs:12-20 | the options' own query object when set, else a fresh page/perPage dictionary |
| `Options.SendOptions.CommonBuildQuery` | src/PocketBase.Blazor/Options/CommonOptions.cs:9-18 | writes "fields" into the very dictionary set on the options, or into a fresh one |
| `Options.SendOptions.BuildQuery` | src/PocketBase.Blazor/Options/FileOptions.cs:11-25 | each override's entries are written into the shared dictionary when one is set |
| `Extensions.CommonToDictionary` | src/PocketBase.Blazor/Extensions/CommonOptionsExtensions.cs:14-26 | a copy of the query with "fields" set when it is not null or white space |
| `Extensions.OptionalDictionary` | src/PocketBase.Blazor/Extensions/CommonOptionsExtensions.cs:14-26 | no query exactly for null options |
| `Extensions.ToDictionaryKeys` | src/PocketBase.Blazor/Extensions/CommonOptionsExtensions.cs:16-23 | the copy keeps every key; only "fields" may be added or overwritten |
| `Extensions.ToQueryDictionary` | src/PocketBase.Blazor/Extensions/QueryOptionsExtensions.cs:8-31 | empty for null options; no key other than the five |
| `Extensions.ToQueryDictionaryEntries` | src/PocketBase.Blazor/Extensions/QueryOptionsExtensions.cs:15-28 | each of the five keys is present exactly when its value is, with that value |
| `BaseClient.MissingId` | src/PocketBase.Blazor/Clients/BaseClient.cs:105-113 | a blank id fails with one error whose status is 404 |
| `BaseClient.ItemPath` | src/PocketBase.Blazor/Clients/BaseClient.cs:118 | the item path is the base path, '/', then the url-encoded id |
| `BaseClient.OptionsBody` | src/PocketBase.Blazor/Clients/BaseClient.cs:127 | an options' body is used only when it is a dictionary |
| `BaseClient.QueryOf` | src/PocketBase.Blazor/Clients/BaseClient.cs:132 | a query is sent exactly when options and their query are set |
| `BaseClient.MergedEntries` | src/PocketBase.Blazor/Clients/BaseClient.cs:180-194 | the merged dictionary has the keys of both bodies; the main body wins on a shared key |
| `BaseClient.MergeBodies` | src/PocketBase.Blazor/Clients/BaseClient.cs:169-194 | the copy loop gives the merge: the options' body, the main body, or the combined dictionary, in which a non-dictionary main body contributes its readable properties |
| `BaseClient.ContentBodyMergesHeaders` | src/PocketBase.Blazor/Clients/BaseClient.cs:169-194 | an `HttpContent` main body merged with an options' body gives the options' entries with "Headers" set to the content's headers |
| `BaseClient.PrepareQuery` | src/PocketBase.Blazor/Clients/BaseClient.cs:39-40 | the options used (fresh when null) keep their values, and their query holds `BuildQuery` written into the caller's dictionary or a fresh one |
| `BaseClient.GetList` | src/PocketBase.Blazor/Clients/BaseClient.cs:37-43 | a GET of the base path with the prepared query |
| `BaseClient.GetOne` | src/PocketBase.Blazor/Clients/BaseClient.cs:103-121 | a blank id returns the 404 failure and leaves the options alone; otherwise a GET of the item path with page 1, 30 per page and the options' keys |
| `BaseClient.Create` | src/PocketBase.Blazor/Clients/BaseClient.cs:124-134 | a POST of the merged body to the base path with the options' query |
| `BaseClient.Update` | src/PocketBase.Blazor/Clients/BaseClient.cs:137-151 | a blank id throws exactly; otherwise a PATCH of the merged body to the item path |
| `BaseClient.DeleteOne` | src/PocketBase.Blazor/Clients/BaseClient.cs:154-167 | a blank id returns the 404 failure exactly; otherwise a DELETE of the item path with no body and no query; never throws |
| `BaseClient.PageQuery` | src/PocketBase.Blazor/Clients/BaseClient.cs:40 | with per-page paging, the query asks for this page and the batch size |
| `BaseClient.FullList` | src/PocketBase.Blazor/Clients/BaseClient.cs:46-72 | no result without pages left to read; a failed page ends the loop with its errors |
| `BaseClient.RequestPage` | src/PocketBase.Blazor/Clients/BaseClient.cs:53-58 | one page request of the loop, leaving the options giving the same query for the next page |
| `BaseClient.RequestFreshPage` | src/PocketBase.Blazor/Clients/BaseClient.cs:39-42 | without options, the request asks for its own page number |
| `BaseClient.RequestStoredPage` | src/PocketBase.Blazor/Clients/BaseClient.cs:39-42 | with options, the query is stored in them and building it again gives the same query |
| `BaseClient.GetFullListInternal` | src/PocketBase.Blazor/Clients/BaseClient.cs:46-72 | the loop returns exactly what `FullList` says for the paging the code uses |
| `BaseClient.GetFullList` | src/PocketBase.Blazor/Clients/BaseClient.cs:75-90 | no options, and a batch of 500 unless one is given |
| `BaseClient.GetFullListWithOptions` | src/PocketBase.Blazor/Clients/BaseClient.cs:93-100 | the options' batch (500 when null) and the options' own query |
| `BaseClient.PerPageCollectsAllPages` | src/PocketBase.Blazor/Clients/BaseClient.cs:46-72 | with a page number in each request, the loop returns every page's items in page order |
| `BaseClient.KeepQueryRepeatsFirstPage` | src/PocketBase.Blazor/Clients/BaseClient.cs:39-40 | with one stored query asking for page 1, each request gets the first page again |
| `BaseClient.AsWrittenOptionsRepeatFirstPage` | src/PocketBase.Blazor/Clients/BaseClient.cs:93-100 | as written, options without a query turn two pages [1], [2] into [1, 1], where no options give [1, 2] |
| `BaseClient.CorrectedPaging` | src/PocketBase.Blazor/Clients/BaseClient.cs:40 | the corrected paging writes this page and the batch size over the options' query |
| `BaseClient.CorrectedCollectsAllPages` | src/PocketBase.Blazor/Clients/BaseClient.cs:46-72 | with the corrected paging, options or none, the full list is every page in order |
| `BatchClient.Client.Collection` | src/PocketBase.Blazor/Clients/Batch/BatchClient.cs:29-32 | a fresh client for the named collection that shares this client's request list |
| `BatchClient.Client.Create` | src/PocketBase.Blazor/Clients/Batch/BatchClient.cs:35-39 | one POST request to the collection's records is appended and the earlier ones are kept |
| `BatchClient.Client.Upsert` | src/PocketBase.Blazor/Clients/Batch/BatchClient.cs:80-84 | one POST request to the collection's records is appended and the earlier ones are kept |
| `BatchClient.Client.Update` | src/PocketBase.Blazor/Clients/Batch/BatchClient.cs:73-77 | a null id throws and queues nothing; otherwise one PATCH of the record is appended |
| `BatchClient.Client.Delete` | src/PocketBase.Blazor/Clients/Batch/BatchClient.cs:42-46 | a null id throws and queues nothing; otherwise one DELETE of the record, without a body, is appended |
| `BatchClient.CreateThroughTwoClients` | src/PocketBase.Blazor/Clients/Batch/BatchClient.cs:22-32 | requests queued through a derived client land in the root client's list, in call order, each with its own collection |
| `BatchRequest.MethodName` | src/PocketBase.Blazor/Requests/Batch/BatchRequest.cs:24-30 | Create and Upsert are POST, Update is PATCH, Delete is DELETE, and any other value throws, each exactly |
| `BatchRequest.CollectionUrl` | src/PocketBase.Blazor/Requests/Batch/BatchRequest.cs:35 | the records URL of the collection, a null name giving an empty segment |
| `BatchRequest.RequestUrl` | src/PocketBase.Blazor/Requests/Batch/BatchRequest.cs:32-43 | the collection URL for Create and Upsert; the record URL for Update and Delete, whose null id throws; any other value throws |
| `BatchRequest.RecordUrlCarriesId` | src/PocketBase.Blazor/Requests/Batch/BatchRequest.cs:37-40 | a record URL is the collection URL, '/', and the id, and differs from the Create URL |
| `BatchRequest.BatchRequest.Attach` | src/PocketBase.Blazor/Requests/Batch/BatchRequest.cs:54-59 | the file list (created when null) gains one file for the given field, keeping the earlier ones |
| `BatchRequest.New` | src/PocketBase.Blazor/Requests/Batch/BatchRequest.cs:22-49 | the method name is checked before the URL; a request exists exactly when both succeed, with that name, URL, body and files |
| `FilesClient.FilePathSegments` | src/PocketBase.Blazor/Clients/Files/FilesClient.cs:34-40 | with an escape that never yields '/', the file path splits into "api", "files" and the three escaped parts |
| `FilesClient.NormalisedQuery` | src/PocketBase.Blazor/Clients/Files/FilesClient.cs:43-48 | "download" is dropped exactly when its value is the string "false"; every other key keeps its value |
| `FilesClient.NormaliseIdempotent` | src/PocketBase.Blazor/Clients/Files/FilesClient.cs:43-48 | normalising a normalised query changes nothing |
| `FilesClient.GetUrl` | src/PocketBase.Blazor/Clients/Files/FilesClient.cs:26-58 | a blank file name or record id returns empty bytes without a request; a null collection id throws; otherwise the caller's query is normalised in place and sent with a GET of the file path |
| `FilesClient.GetToken` | src/PocketBase.Blazor/Clients/Files/FilesClient.cs:61-71 | a POST to the token path with the options' body and query, none without options |
| `FilesClient.TokenOutcome` | src/PocketBase.Blazor/Clients/Files/FilesClient.cs:73 | a failed response throws on reading its value; a success gives its token, or "" when it is null |
| `AdminsClient.PasswordBody` | src/PocketBase.Blazor/Clients/Admin/AdminsClient.cs:35-39 | the body has exactly "identity" and "password", with the given values |
| `Values.RequiredPair` | src/PocketBase.Blazor/Clients/Admin/AdminsClient.cs:29-33 | two required arguments in order: a blank first throws its message, then a blank second; nothing exactly when both are given |
| `AdminsClient.PasswordArguments` | src/PocketBase.Blazor/Clients/Admin/AdminsClient.cs:29-33 | a blank email throws first, then a blank password; nothing is thrown exactly when both are given |
| `AdminsClient.ImpersonateArguments` | src/PocketBase.Blazor/Clients/Admin/AdminsClient.cs:76-77 | the collection name is checked before the record id; nothing is thrown exactly when both are given |
| `AdminsClient.Client.SaveOnSuccess` | src/PocketBase.Blazor/Clients/Admin/AdminsClient.cs:43-51 | a success is saved into the store when one is set, which then holds it; a failure leaves the store as it was |
| `AdminsClient.Client.AuthWithPassword` | src/PocketBase.Blazor/Clients/Admin/AdminsClient.cs:27-52 | argument errors throw with the store unchanged; otherwise the password body is POSTed and a success is saved |
| `AdminsClient.Client.AuthRefresh` | src/PocketBase.Blazor/Clients/Admin/AdminsClient.cs:55-71 | a POST with the options' built query (page 1, 30 per page without options); a success is saved |
| `AdminsClient.Client.Impersonate` | src/PocketBase.Blazor/Clients/Admin/AdminsClient.cs:74-98 | argument errors throw; otherwise the duration body is POSTed to the impersonation path with the built query and a success is saved |
| `AdminsClient.Client.Logout` | src/PocketBase.Blazor/Clients/Admin/AdminsClient.cs:101-106 | a POST to the logout path and an Ok result whatever the response; the store, when set, is cleared |
| `AdminsClient.Client.SetStore` | src/PocketBase.Blazor/Clients/Admin/AdminsClient.cs:109-112 | a null store throws and keeps the old one; otherwise the store is set |
| `SettingsClient.AsFlag` | src/PocketBase.Blazor/Clients/Settings/SettingsClient.cs:48 | Ok(true) exactly for a successful response; a failure keeps its errors |
| `SettingsClient.JsonString` | src/PocketBase.Blazor/Clients/Settings/SettingsClient.cs:59 | a null name becomes JSON null, any other string a JSON string |
| `SettingsClient.GetList` | src/PocketBase.Blazor/Clients/Settings/SettingsClient.cs:31-34 | a GET of the settings path with no body and no query |
| `SettingsClient.Update` | src/PocketBase.Blazor/Clients/Settings/SettingsClient.cs:37-41 | null settings throw exactly; otherwise a PATCH of the settings |
| `SettingsClient.TestS3` | src/PocketBase.Blazor/Clients/Settings/SettingsClient.cs:44-49 | a POST to the file system's test path; a query exactly when options are given, their dictionary copy |
| `SettingsClient.TestEmailArguments` | src/PocketBase.Blazor/Clients/Settings/SettingsClient.cs:54-55 | a blank recipient throws first, then a blank template; nothing exactly when both are given |
| `SettingsClient.TestEmail` | src/PocketBase.Blazor/Clients/Settings/SettingsClient.cs:52-67 | argument errors throw; otherwise a POST of the collection, recipient and template |
| `SettingsClient.SecretFieldCheck` | src/PocketBase.Blazor/Clients/Settings/SettingsClient.cs:73-77 | the four field checks in order, then a non-positive duration; nothing exactly when all pass |
| `SettingsClient.GenerateAppleClientSecret` | src/PocketBase.Blazor/Clients/Settings/SettingsClient.cs:70-90 | a null request throws; a failed check throws; otherwise a POST of the five fields |
| `SettingsClient.CreateClientSecret` | src/PocketBase.Blazor/Clients/Settings/SettingsClient.cs:93-130 | null config throws; a secret exactly when every check passes and the duration is at most 15777000, and it is the signed token |
| `SettingsClient.GenerateHasNoUpperBound` | src/PocketBase.Blazor/Clients/Settings/SettingsClient.cs:77 | the server request accepts durations above 15777000, which the local secret rejects |
| `SettingsClient.SecretChecksAgree` | src/PocketBase.Blazor/Clients/Settings/SettingsClient.cs:73-101 | within the maximum duration, both operations accept the same configurations |
| `CronsClient.GetFullList` | src/PocketBase.Blazor/Clients/Crons/CronsClient.cs:27-31 | a GET of "api/crons" with the options' dictionary copy as query, none without options |
| `CronsClient.Run` | src/PocketBase.Blazor/Clients/Crons/CronsClient.cs:34-41 | a blank id throws exactly; otherwise a POST to the job's path with the options' query |
| `CronsClient.Register` | src/PocketBase.Blazor/Clients/Crons/CronsClient.cs:44-55 | null, a blank id and a blank expression throw in that order; otherwise a POST of the request to "internal/cron" |
| `EventStream.Feed` | src/PocketBase.Blazor/Clients/Realtime/RealtimeBase.cs:147-149 | a line with none of the three prefixes leaves the frame as it was |
| `EventStream.Emit` | src/PocketBase.Blazor/Clients/Realtime/RealtimeBase.cs:142 | a blank line emits one event exactly when the frame named an event type, and none otherwise |
| `EventStream.StreamRawEvents` | src/PocketBase.Blazor/Clients/Realtime/RealtimeBase.cs:133-151 | the line loop returns exactly the events of `Parse` |
| `EventStream.EventCountBound` | src/PocketBase.Blazor/Clients/Realtime/RealtimeBase.cs:140-145 | no more events than blank lines |
| `EventStream.OpenFrameNotEmitted` | src/PocketBase.Blazor/Clients/Realtime/RealtimeBase.cs:138-150 | a frame not ended by a blank line is never emitted |
| `EventStream.FeedAllSnoc` | src/PocketBase.Blazor/Clients/Realtime/RealtimeBase.cs:147-149 | feeding lines one by one is feeding them in order |
| `EventStream.ParseFrame` | src/PocketBase.Blazor/Clients/Realtime/RealtimeBase.cs:140-145 | a frame ended by a blank line gives its own event, if any, then the events of the rest, read from a fresh frame |
| `EventStream.ParseAppend` | src/PocketBase.Blazor/Clients/Realtime/RealtimeBase.cs:143 | after a blank line the stream is read afresh, so the events of two parts are concatenated |
| `EventStream.PrefixesExclusive` | src/PocketBase.Blazor/Clients/Realtime/RealtimeBase.cs:147-149 | a line has at most one of the three prefixes |
| `EventStream.FrameFields` | src/PocketBase.Blazor/Clients/Realtime/RealtimeBase.cs:135-149 | a frame's id and event type are the last ones given, and its data is every data value in order, each followed by a line terminator |
| `EventStream.FrameEvent` | src/PocketBase.Blazor/Clients/Realtime/RealtimeBase.cs:140-149 | a frame without an event line emits nothing; otherwise one event with the last id, the last event type and the joined data |
| `RealtimeBase.OnConnectionEvent` | src/PocketBase.Blazor/Clients/Realtime/RealtimeBase.cs:96-107 | PB_CONNECT takes the client id and connects; PB_DISCONNECT disconnects and notifies with the reasons, an empty list for null; other names change nothing |
| `RealtimeBase.Topic` | src/PocketBase.Blazor/Clients/Realtime/RealtimeClient.cs:119 | the topic is the collection, '/', then the record id |
| `RealtimeBase.TopicInjective` | src/PocketBase.Blazor/Clients/Realtime/RealtimeClient.cs:119 | a collection name without '/' and the record id are read back from the topic |
| `RealtimeBase.Others` | src/PocketBase.Blazor/Clients/Realtime/RealtimeBase.cs:108-111 | no connection event is ever forwarded |
| `RealtimeBase.LastConnectionEvent` | src/PocketBase.Blazor/Clients/Realtime/RealtimeBase.cs:96-107 | the last connection event of the stream, if any |
| `RealtimeBase.LastConnect` | src/PocketBase.Blazor/Clients/Realtime/RealtimeBase.cs:96-101 | the last PB_CONNECT of the stream, if any |
| `RealtimeBase.RunProperties` | src/PocketBase.Blazor/Clients/Realtime/RealtimeBase.cs:94-112 | every other event is forwarded in order; one notification per PB_DISCONNECT; the client id of the last PB_CONNECT; connected exactly when the last connection event was PB_CONNECT |
| `RealtimeBase.Realtime.constructor` | src/PocketBase.Blazor/Clients/Realtime/RealtimeBase.cs:74-80 | no client id, not connected, an empty open channel, no connection task |
| `RealtimeBase.Realtime.EnsureConnected` | src/PocketBase.Blazor/Clients/Realtime/RealtimeBase.cs:86-126 | nothing when a task exists; otherwise the stream is read to its end as `Run` says, and the client ends disconnected |
| `RealtimeBase.SubscribeCall` | src/PocketBase.Blazor/Clients/Realtime/RealtimeBase.cs:160-165 | the subscribe guard both clients share: throws the given message exactly without a client id; otherwise a POST of the client id and the one topic with the given query |
| `RealtimeBase.Realtime.SubscribeInternal` | src/PocketBase.Blazor/Clients/Realtime/RealtimeBase.cs:160-165 | throws exactly without a client id; otherwise a POST of the client id and the one topic with the options' query |
| `RealtimeBase.Realtime.UnsubscribeInternal` | src/PocketBase.Blazor/Clients/Realtime/RealtimeBase.cs:172-177 | throws exactly without a client id; otherwise a POST of the client id and the topics, without a query |
| `RealtimeBase.Realtime.Dispose` | src/PocketBase.Blazor/Clients/Realtime/RealtimeBase.cs:182-189 | cancels, completes the channel, disconnects and notifies once with no reasons, keeping the rest |
| `RealtimeClient.RemoveFirst` | src/PocketBase.Blazor/Clients/Realtime/RealtimeClient.cs:240 | a listener not in the list leaves it unchanged; otherwise one element fewer |
| `RealtimeClient.RemoveFirstAt` | src/PocketBase.Blazor/Clients/Realtime/RealtimeClient.cs:240 | removal drops exactly the first occurrence |
| `RealtimeClient.RemoveFirstMultiset` | src/PocketBase.Blazor/Clients/Realtime/RealtimeClient.cs:240 | removal takes one copy of the listener out of the multiset of listeners |
| `RealtimeClient.AddListener` | src/PocketBase.Blazor/Clients/Realtime/RealtimeClient.cs:225-231 | the listener is appended under the key, a missing list being created; other keys are unchanged; no list becomes empty |
| `RealtimeClient.RemoveListener` | src/PocketBase.Blazor/Clients/Realtime/RealtimeClient.cs:238-243 | an absent key changes nothing; otherwise the first occurrence is removed and the key dropped once its list is empty; other keys unchanged |
| `RealtimeClient.RemoveAfterAdd` | src/PocketBase.Blazor/Clients/Realtime/RealtimeClient.cs:214-245 | subscribing a listener new to its key and disposing it restores the registry |
| `RealtimeClient.RemoveAfterAddMultiset` | src/PocketBase.Blazor/Clients/Realtime/RealtimeClient.cs:214-245 | subscribing and disposing again keeps the key's listeners as a multiset |
| `RealtimeClient.Deliver` | src/PocketBase.Blazor/Clients/Realtime/RealtimeClient.cs:272-290 | no calls unless the event is "record" and its key has listeners; then each listener once, in registration order, with the parsed event |
| `RealtimeClient.DeliverReaches` | src/PocketBase.Blazor/Clients/Realtime/RealtimeClient.cs:272-290 | a listener is called exactly when the event is a record event and the listener is registered under its key |
| `RealtimeClient.TopicRouting` | src/PocketBase.Blazor/Clients/Realtime/RealtimeClient.cs:277 | a listener of "collection/recordId" hears a record of the collection exactly when the id matches, "*" matching only records without id |
| `RealtimeClient.WithoutPrefix` | src/PocketBase.Blazor/Clients/Realtime/RealtimeClient.cs:468-474 | exactly the keys that do not start with the prefix remain, with their lists |
| `RealtimeClient.EnumerateKeys` | src/PocketBase.Blazor/Clients/Realtime/RealtimeClient.cs:490 | each key of the dictionary once |
| `RealtimeClient.Client.constructor` | src/PocketBase.Blazor/Clients/Realtime/RealtimeClient.cs:41-45 | an empty disconnected client with no registrations |
| `RealtimeClient.Client.EnsureConnected2` | src/PocketBase.Blazor/Clients/Realtime/RealtimeClient.cs:360-383 | nothing when a task exists; otherwise the client id of the last PB_CONNECT and every other event, PB_DISCONNECT included, in the channel; `waits` exactly when it started the task and no client id is known, so a client already started returns at once even without an id |
| `RealtimeClient.Client.SubscribeInternal2` | src/PocketBase.Blazor/Clients/Realtime/RealtimeClient.cs:311-326 | throws exactly without a client id; otherwise a POST of the client id and the topic |
| `RealtimeClient.Client.AddToRegistry` | src/PocketBase.Blazor/Clients/Realtime/RealtimeClient.cs:223-232 | the registry gains the listener as `AddListener` says; nothing else changes |
| `RealtimeClient.Client.RemoveFromRegistry` | src/PocketBase.Blazor/Clients/Realtime/RealtimeClient.cs:236-244 | the registry loses the listener as `RemoveListener` says; nothing else changes |
| `RealtimeClient.Client.Subscribe` | src/PocketBase.Blazor/Clients/Realtime/RealtimeClient.cs:214-246 | connects, starts a dispatcher, sends the subscription and registers the listener under "collection/recordId", returning a fresh handle; no outcome when it would wait for ever for a client id; a connection started earlier without one starts a dispatcher and throws "Realtime not connected."; in neither case is anything registered |
| `RealtimeClient.Client.Dispatch` | src/PocketBase.Blazor/Clients/Realtime/RealtimeClient.cs:266-293 | reading the channel gives exactly the calls `DispatchAll` lists, over the registry as it was |
| `RealtimeClient.Client.DispatchEvent` | src/PocketBase.Blazor/Clients/Realtime/RealtimeClient.cs:272-290 | one event gives exactly the calls `Deliver` lists |
| `RealtimeClient.Client.Unsubscribe` | src/PocketBase.Blazor/Clients/Realtime/RealtimeClient.cs:447-463 | a blank topic empties `_subscriptions`, another removes only that key; the client is then disconnected and notified once with no reasons |
| `RealtimeClient.Client.UnsubscribeByPrefix` | src/PocketBase.Blazor/Clients/Realtime/RealtimeClient.cs:466-479 | exactly the keys with the prefix are removed |
| `RealtimeClient.Client.UnsubscribeByTopicAndListener` | src/PocketBase.Blazor/Clients/Realtime/RealtimeClient.cs:482-493 | the callback leaves the topic's list, which goes once empty; the request lists the keys left |
| `RealtimeClient.Handle.constructor` | src/PocketBase.Blazor/Clients/Realtime/RealtimeClient.cs:253-256 | a handle for its owner, key and listener, not disposed |
| `RealtimeClient.Handle.Dispose` | src/PocketBase.Blazor/Clients/Realtime/RealtimeClient.cs:234-263 | the first call removes the listener from the owner's registry; later calls change nothing |
| `RealtimeClient.WithoutConnectMembers` | src/PocketBase.Blazor/Clients/Realtime/RealtimeClient.cs:367-377 | every event other than PB_CONNECT reaches the channel, PB_DISCONNECT included, and PB_CONNECT never does |
| `RealtimeSseClient.SseClient.constructor` | src/PocketBase.Blazor/Clients/Realtime/RealtimeSseClient.cs:50-56 | no client id, not connected, no notifications |
| `RealtimeSseClient.SseClient.HandleEvent` | src/PocketBase.Blazor/Clients/Realtime/RealtimeSseClient.cs:180-206 | the connection fields change exactly as `OnConnectionEvent` says: PB_CONNECT, PB_DISCONNECT, and no change for any other name, null included |
| `RealtimeSseClient.SseClient.SubscribeInternal` | src/PocketBase.Blazor/Clients/Realtime/RealtimeSseClient.cs:208-216 | throws exactly without a client id, before any request; otherwise a POST of the client id and the one topic |
| `RealtimeSseClient.ConnectThenDisconnect` | src/PocketBase.Blazor/Clients/Realtime/RealtimeSseClient.cs:184-197 | a PB_DISCONNECT after a PB_CONNECT keeps the connect's client id, adds one notification and leaves the client disconnected |
| `SubscriptionModel.Subscription.constructor` | src/PocketBase.Blazor/Models/SubscriptionModel.cs:10-13 | the action has not run |
| `SubscriptionModel.Subscription.RunAction` | src/PocketBase.Blazor/Models/SubscriptionModel.cs:19 | one run of the action, which sees the flag as it is |
| `SubscriptionModel.Subscription.Dispose` | src/PocketBase.Blazor/Models/SubscriptionModel.cs:15-20 | the first call runs the action once, with the flag already set; later calls run nothing |
| `MultipartFile.New` | src/PocketBase.Blazor/Http/MultipartFile.cs:42-51 | a null stream, then a blank file name, is rejected; otherwise the properties as given, a blank form name becoming "file" |
| `MultipartFile.NameNeverBlank` | src/PocketBase.Blazor/Http/MultipartFile.cs:45-50 | every file built has a form name and a file name that are not blank |
| `MultipartFile.FromBytes` | src/PocketBase.Blazor/Http/MultipartFile.cs:56-60 | null bytes are rejected; otherwise the constructor over a memory stream of the bytes |
| `MultipartFile.FromFile` | src/PocketBase.Blazor/Http/MultipartFile.cs:65-73 | a blank path is rejected; otherwise `File.OpenRead`'s exception comes first, and an opened file goes to the constructor, named by the path's last segment, which holds no separator |
| `MultipartFile.DirectoryPathRejected` | src/PocketBase.Blazor/Http/MultipartFile.cs:72 | a path ending with '/' never gives a file: the open's own exception, or, should the open succeed, the blank file name's |
| `HttpTransport.TrimmedBase` | src/PocketBase.Blazor/Http/HttpTransport.cs:307-308 | the base address without trailing '/', a prefix of it; "" without a base address |
| `HttpTransport.BuildUrlJoin` | src/PocketBase.Blazor/Http/HttpTransport.cs:305-309 | the url is the trimmed base, exactly one '/', and the endpoint without its leading '/' |
| `HttpTransport.BuildUrlWithoutBase` | src/PocketBase.Blazor/Http/HttpTransport.cs:307-308 | without a base address the url is "/" and the endpoint |
| `HttpTransport.BuildUrlLeadingSlash` | src/PocketBase.Blazor/Http/HttpTransport.cs:308 | a leading '/' of the endpoint does not change the url |
| `HttpTransport.ValueText` | src/PocketBase.Blazor/Http/HttpTransport.cs:106 | a null value is "", a string is itself |
| `HttpTransport.QueryPairRoundTrip` | src/PocketBase.Blazor/Http/HttpTransport.cs:106 | without '=' in the key and the escaped value, a pair splits back into them |
| `HttpTransport.QueryPairs` | src/PocketBase.Blazor/Http/HttpTransport.cs:106 | given an enumeration of the query (every key once, nothing else), one "key=value" pair per key, in enumeration order |
| `HttpTransport.EnumerationLength` | src/PocketBase.Blazor/Http/HttpTransport.cs:106 | an enumeration of the query has exactly as many keys as the query |
| `HttpTransport.QueryPairsEveryEntryOnce` | src/PocketBase.Blazor/Http/HttpTransport.cs:106 | every entry of the query gives exactly one pair, at exactly one position, and there are as many pairs as entries |
| `HttpTransport.QueryStringRoundTrip` | src/PocketBase.Blazor/Http/HttpTransport.cs:106 | for a non-empty query enumerated once per key, without '&' in keys and escaped values, the query string splits back into its pairs |
| `HttpTransport.RequestUrl` | src/PocketBase.Blazor/Http/HttpTransport.cs:104-106 | the url alone without a query; with one, the url, '?' and the pairs of an enumeration of that query, so an empty query leaves a bare '?' |
| `HttpTransport.BodyContent` | src/PocketBase.Blazor/Http/HttpTransport.cs:110-118 | no content without a body; HTTP content is attached as it is; any other body is sent as JSON |
| `HttpTransport.BuildRequest` | src/PocketBase.Blazor/Http/HttpTransport.cs:102-120 | the request has the verb, the url with its query, and the body's content |
| `HttpTransport.BuildFileRequest` | src/PocketBase.Blazor/Http/HttpTransport.cs:131-146 | the request has the verb, the url with its query, and form data of the file's name, file name, type and stream |
| `HttpTransport.StatusResult` | src/PocketBase.Blazor/Http/HttpTransport.cs:148-173 | Ok exactly for a success status; otherwise a failure with the exception message |
| `HttpTransport.TypedResult` | src/PocketBase.Blazor/Http/HttpTransport.cs:175-240 | a failure status gives one error with the status; a null decoded value fails; Ok exactly when the status succeeds and the value decodes, with that value |
| `HttpTransport.WithoutHeader` | src/PocketBase.Blazor/Http/HttpTransport.cs:79 | the headers of other names, all of them, and none of that name |
| `HttpTransport.WithoutHeaderTwice` | src/PocketBase.Blazor/Http/HttpTransport.cs:79 | removing a header twice is removing it once |
| `HttpTransport.WithoutHeaderAppend` | src/PocketBase.Blazor/Http/HttpTransport.cs:79 | removal works on each part of a header list separately |
| `HttpTransport.WithAuthorization` | src/PocketBase.Blazor/Http/HttpTransport.cs:74-82 | no change for a null or empty token; otherwise every Authorization header replaced by one holding the token |
| `HttpTransport.AuthorizationReplaced` | src/PocketBase.Blazor/Http/HttpTransport.cs:74-82 | after the update the token is the only Authorization header and the last one, other headers are kept, and updating again changes nothing |
| `HttpTransport.Transport.New` | src/PocketBase.Blazor/Http/HttpTransport.cs:33-53 | without a client, the base URL is parsed and a parse failure throws; otherwise a transport owning a client exactly when none is given, whose base address is the parsed URL or the given client's, with the Accept header and, where allowed, the User-Agent header, no store, nothing sent |
| `HttpTransport.Transport.constructor` | src/PocketBase.Blazor/Http/HttpTransport.cs:33-53 | a client of its own exactly when none is given, based at the parsed address or at the given client's, with the Accept header and, where allowed, the User-Agent header; no store |
| `HttpTransport.Transport.BaseUrl` | src/PocketBase.Blazor/Http/HttpTransport.cs:30 | the base address, or "" without one |
| `HttpTransport.Transport.SetStore` | src/PocketBase.Blazor/Http/HttpTransport.cs:69-72 | the store is set and nothing else changes |
| `HttpTransport.Transport.UpdateAuthorizationHeader` | src/PocketBase.Blazor/Http/HttpTransport.cs:74-82 | the headers as `WithAuthorization` says for the store's token |
| `HttpTransport.Transport.Send` | src/PocketBase.Blazor/Http/HttpTransport.cs:85-91 | the authorization is updated, the built request is sent, and the typed result is returned |
| `HttpTransport.Transport.SendNoValue` | src/PocketBase.Blazor/Http/HttpTransport.cs:94-100 | the authorization is updated, the built request is sent, and the status result is returned |
| `HttpTransport.Transport.SendFile` | src/PocketBase.Blazor/Http/HttpTransport.cs:123-129 | the authorization is updated, the form-data request is sent, and the status result is returned |
| `HttpTransport.Transport.SendForBytes` | src/PocketBase.Blazor/Http/HttpTransport.cs:271-284 | the authorization is updated, the built request is sent, and a success gives the response's bytes |
| `HttpTransport.Transport.Dispose` | src/PocketBase.Blazor/Http/HttpTransport.cs:312-323 | only the first call acts, and it disposes the HTTP client only when the transport owns it |
| `HttpTransport.DisposeTwice` | src/PocketBase.Blazor/Http/HttpTransport.cs:312-323 | two calls dispose an owned client once and a borrowed one never |
| `AuthStore.SessionToken` | src/PocketBase.Blazor/Store/PocketBaseStore.cs:32 | a token exactly when there is a session, and it is the session's token |
| `AuthStore.Store.constructor` | src/PocketBase.Blazor/Store/AuthStore.cs:8-18 | no token and no session |
| `AuthStore.Store.Save` | src/PocketBase.Blazor/Store/AuthStore.cs:24-28 | the token and the session of the response, which agree |
| `AuthStore.Store.Clear` | src/PocketBase.Blazor/Store/AuthStore.cs:33-37 | no token and no session |
| `PocketBaseStore.Store.Token` | src/PocketBase.Blazor/Store/PocketBaseStore.cs:32 | the current session's token, null without a session |
| `PocketBaseStore.Store.constructor` | src/PocketBase.Blazor/Store/PocketBaseStore.cs:45-50 | the three references as given and no session |
| `PocketBaseStore.Store.Save` | src/PocketBase.Blazor/Store/PocketBaseStore.cs:56-60 | the session and its token, with the inner store holding the same |
| `PocketBaseStore.Store.Clear` | src/PocketBase.Blazor/Store/PocketBaseStore.cs:65-69 | no session and no token, in both stores |
| `PocketBaseStore.New` | src/PocketBase.Blazor/Store/PocketBaseStore.cs:45-50 | each null argument throws, in order; a store exactly when all three are given, holding them |
| `Platform.ArchitectureName` | src/PocketBase.Blazor/Hosting/Services/PocketBaseBinaryResolver.cs:40 | the printed architecture name is not empty and holds no '_' or '.' |
| `BinaryResolver.OSPlatform` | src/PocketBase.Blazor/Hosting/Services/PocketBaseBinaryResolver.cs:96-106 | Windows, Linux and OSX by their printed names; any other platform throws, exactly |
| `BinaryResolver.OSPlatformName` | src/PocketBase.Blazor/Hosting/Services/PocketBaseBinaryResolver.cs:108-118 | "windows", "linux" and "darwin"; any other platform throws, exactly |
| `BinaryResolver.ArchitectureString` | src/PocketBase.Blazor/Hosting/Services/PocketBaseBinaryResolver.cs:120-129 | "amd64" for X64 and "arm64" for Arm64; every other architecture throws, exactly |
| `BinaryResolver.LocalNameShape` | src/PocketBase.Blazor/Hosting/Services/PocketBaseBinaryResolver.cs:35-40 | the cached file name starts with "pocketbase_" and ends with ".exe" exactly on Windows |
| `BinaryResolver.LocalExecutablePath` | src/PocketBase.Blazor/Hosting/Services/PocketBaseBinaryResolver.cs:31-42 | the local application data folder, "pocketbase", and the local name, combined with the platform's own separator; an unknown platform throws, exactly |
| `BinaryResolver.LocalExecutablePathSeparators` | src/PocketBase.Blazor/Hosting/Services/PocketBaseBinaryResolver.cs:31-42 | below a folder without a trailing separator, the path is `<folder>\pocketbase\<name>` on Windows and `<folder>/pocketbase/<name>` elsewhere |
| `BinaryResolver.DownloadUrl` | src/PocketBase.Blazor/Hosting/Services/PocketBaseBinaryResolver.cs:48-55 | the release archive URL of this version, platform and architecture, present exactly when both are supported |
| `BinaryResolver.DownloadUrlExtension` | src/PocketBase.Blazor/Hosting/Services/PocketBaseBinaryResolver.cs:50 | the Windows archive is a ".zip" and every other a ".tar.gz" |
| `BinaryResolver.Download` | src/PocketBase.Blazor/Hosting/Services/PocketBaseBinaryResolver.cs:44-94 | the local path exactly when the archive exists and fetching it succeeds; every failure gives null |
| `BinaryResolver.Resolve` | src/PocketBase.Blazor/Hosting/Services/PocketBaseBinaryResolver.cs:20-29 | an unknown platform throws; the cached file when it exists; otherwise the download's result |
| `BinaryResolver.CachedNeedsNoDownload` | src/PocketBase.Blazor/Hosting/Services/PocketBaseBinaryResolver.cs:23-25 | with the file cached, the result does not depend on the download |
| `BinaryResolver.ResolvedIsLocalPath` | src/PocketBase.Blazor/Hosting/Services/PocketBaseBinaryResolver.cs:20-29 | any path resolved is the local executable path |
| `BinaryResolver.UnsupportedArchitectureResolvesNothing` | src/PocketBase.Blazor/Hosting/Services/PocketBaseBinaryResolver.cs:89-93 | without a cached file, an unsupported architecture resolves to null, not an exception |
| `ServerBinaryResolver.Resolve` | src/PocketBase.Blazor/PocketBaseBinaryResolver.cs:7-16 | "pb-server.exe" exactly on Windows, "pb-server-macos" exactly on macOS, "pb-server-linux" exactly otherwise |
| `ServerBinaryResolver.ExeOnlyOnWindows` | src/PocketBase.Blazor/PocketBaseBinaryResolver.cs:7-16 | the name ends with ".exe" exactly on Windows |
| `PocketBaseHost.BaseUrl` | src/PocketBase.Blazor/Hosting/PocketBaseHost.cs:20 | the base URL starts with "http://" |
| `PocketBaseHost.IntToStringNoColon` | src/PocketBase.Blazor/Hosting/PocketBaseHost.cs:20 | a printed port holds no ':' |
| `PocketBaseHost.BaseUrlRoundTrip` | src/PocketBase.Blazor/Hosting/PocketBaseHost.cs:20 | a host without ':' and a 32-bit port are read back from the base URL at its last ':' |
| `PocketBaseHost.Arguments` | src/PocketBase.Blazor/Hosting/PocketBaseHost.cs:58-75 | the command line starts with "serve" |
| `PocketBaseHost.ArgumentsIgnoreHostAndPort` | src/PocketBase.Blazor/Hosting/PocketBaseHost.cs:60-63 | the command line is the same whatever Host and Port say |
| `PocketBaseHost.DevFlagExactlyWhenDev` | src/PocketBase.Blazor/Hosting/PocketBaseHost.cs:65-66 | " --dev" follows "serve" exactly when Dev is set |
| `PocketBaseHost.PlainServe` | src/PocketBase.Blazor/Hosting/PocketBaseHost.cs:63-72 | the command line is "serve" alone exactly when Dev is off and both directories are blank |
| `PocketBaseHost.Host.constructor` | src/PocketBase.Blazor/Hosting/PocketBaseHost.cs:36-52 | the host keeps its executable and options, and its process gets the built arguments |
| `PocketBaseHost.New` | src/PocketBase.Blazor/Hosting/PocketBaseHost.cs:28-56 | a blank or missing executable throws, exactly; otherwise a host with the options, or defaults when none are given |
| `MigrationWriter.TemplateOf` | src/PocketBase.Blazor/Scaffolding/Internal/SchemaTemplateMigrationWriter.cs:14-20 | a template exactly for the three defined schemas, with a relative file name |
| `MigrationWriter.TemplatesDistinct` | src/PocketBase.Blazor/Scaffolding/Internal/SchemaTemplateMigrationWriter.cs:14-20 | two different schemas have different file names and different contents |
| `MigrationWriter.DigitAt` | src/PocketBase.Blazor/Scaffolding/Internal/SchemaTemplateMigrationWriter.cs:17-19 | each template's file name carries its own digit at index 9 |
| `MigrationWriter.MigrationsDirectory` | src/PocketBase.Blazor/Scaffolding/Internal/SchemaTemplateMigrationWriter.cs:51-64 | MigrationsDir when not blank, else Dir joined with "pb_migrations", else "pb_migrations"; never blank |
| `MigrationWriter.TemplatePathsDistinct` | src/PocketBase.Blazor/Scaffolding/Internal/SchemaTemplateMigrationWriter.cs:43 | two different schemas are written to different paths in one directory |
| `MigrationWriter.WrittenAt` | src/PocketBase.Blazor/Scaffolding/Internal/SchemaTemplateMigrationWriter.cs:36-48 | every defined schema's file holds its template and every other file is as it was |
| `MigrationWriter.WrittenOrderIrrelevant` | src/PocketBase.Blazor/Scaffolding/Internal/SchemaTemplateMigrationWriter.cs:36-48 | which schemas are written matters; the order and any repetition do not |
| `MigrationWriter.WrittenIdempotent` | src/PocketBase.Blazor/Scaffolding/Internal/SchemaTemplateMigrationWriter.cs:36-48 | writing the same schemas again changes nothing |
| `MigrationWriter.FileSystem.CreateDirectory` | src/PocketBase.Blazor/Scaffolding/Internal/SchemaTemplateMigrationWriter.cs:34 | the directory exists afterwards and no file changes |
| `MigrationWriter.FileSystem.WriteAllText` | src/PocketBase.Blazor/Scaffolding/Internal/SchemaTemplateMigrationWriter.cs:44 | the file holds the content afterwards and nothing else changes |
| `MigrationWriter.WriteAsync` | src/PocketBase.Blazor/Scaffolding/Internal/SchemaTemplateMigrationWriter.cs:22-49 | nothing for no schemas; otherwise the migrations directory is created and each schema with a template is written into it |
| `PocketBaseHostBuilder.WithTemplate` | src/PocketBase.Blazor/Hosting/PocketBaseHostBuilder.cs:49-57 | a defined schema is added to the template set; an undefined value leaves it as it was |
| `PocketBaseHostBuilder.WithTemplateIdempotent` | src/PocketBase.Blazor/Hosting/PocketBaseHostBuilder.cs:49-57 | adding the same schema twice is adding it once |
| `PocketBaseHostBuilder.WithTemplatesAddsDefined` | src/PocketBase.Blazor/Hosting/PocketBaseHostBuilder.cs:59-69 | the set gains exactly the defined schemas of the collection, whatever their order or repetition |
| `PocketBaseHostBuilder.WithVariable` | src/PocketBase.Blazor/Hosting/PocketBaseHostBuilder.cs:132-157 | an empty value or an unknown name (compared in upper case) changes nothing; HOST and DIR set their option; PORT and DEV set theirs only when the value parses; the other options are never touched |
| `PocketBaseHostBuilder.OnlyApplicableVariablesCount` | src/PocketBase.Blazor/Hosting/PocketBaseHostBuilder.cs:111-130 | the result is the same when the variables without the prefix or without a value are dropped first |
| `PocketBaseHostBuilder.EnvironmentKeepsOtherOptions` | src/PocketBase.Blazor/Hosting/PocketBaseHostBuilder.cs:111-157 | the environment never changes MigrationsDir or Executable |
| `PocketBaseHostBuilder.HostVariable` | src/PocketBase.Blazor/Hosting/PocketBaseHostBuilder.cs:139-141 | a non-empty prefix+HOST variable applied last sets the host |
| `PocketBaseHostBuilder.PortVariable` | src/PocketBase.Blazor/Hosting/PocketBaseHostBuilder.cs:143-146 | a prefix+PORT variable holding a printed 32-bit integer applied last sets the port to that integer |
| `PocketBaseHostBuilder.DirVariable` | src/PocketBase.Blazor/Hosting/PocketBaseHostBuilder.cs:148-150 | a non-empty prefix+DIR variable applied last sets the data directory |
| `PocketBaseHostBuilder.DevVariable` | src/PocketBase.Blazor/Hosting/PocketBaseHostBuilder.cs:152-155 | a prefix+DEV variable that parses as a boolean applied last sets the development flag |
| `PocketBaseHostBuilder.AppliedStep` | src/PocketBase.Blazor/Hosting/PocketBaseHostBuilder.cs:115-126 | a variable named with the prefix is applied under the rest of its name, after the ones before it |
| `PocketBaseHostBuilder.Configured` | src/PocketBase.Blazor/Hosting/PocketBaseHostBuilder.cs:237-247 | a null configuration changes nothing; Port and Dev are always taken; Host, Dir and the executable are taken only when not null |
| `PocketBaseHostBuilder.ConfiguredIdempotent` | src/PocketBase.Blazor/Hosting/PocketBaseHostBuilder.cs:237-247 | applying the same configuration twice is applying it once |
| `PocketBaseHostBuilder.XmlOptions` | src/PocketBase.Blazor/Hosting/PocketBaseHostBuilder.cs:213-228 | no root gives the defaults; Host is the element's value when present; Port is the element's when it parses, else the default |
| `PocketBaseHostBuilder.FormatOf` | src/PocketBase.Blazor/Hosting/PocketBaseHostBuilder.cs:166-176 | an extension other than ".json" and ".xml" is refused with the lower-cased extension in the message |
| `PocketBaseHostBuilder.FormatIgnoresCase` | src/PocketBase.Blazor/Hosting/PocketBaseHostBuilder.cs:166-176 | a file "stem.ext" is JSON exactly when ext lower-cases to "json", XML exactly when it lower-cases to "xml", and refused otherwise |
| `PocketBaseHostBuilder.Resolution` | src/PocketBase.Blazor/Hosting/PocketBaseHostBuilder.cs:102-103 | a path already set is kept; otherwise the resolver's result, which is the local executable path when one is found |
| `PocketBaseHostBuilder.Launch` | src/PocketBase.Blazor/Hosting/PocketBaseHostBuilder.cs:105-108 | a host is made exactly when the resolution succeeded with a non-blank path that exists, and with that path; a blank path throws "No PocketBase executable found" |
| `PocketBaseHostBuilder.Builder.constructor` | src/PocketBase.Blazor/Hosting/PocketBaseHostBuilder.cs:21-33 | nothing configured, no templates, default options |
| `PocketBaseHostBuilder.Builder.UseExecutable` | src/PocketBase.Blazor/Hosting/PocketBaseHostBuilder.cs:35-39 | a null path throws and changes nothing; otherwise the path is set and nothing else changes |
| `PocketBaseHostBuilder.Builder.UseCrons` | src/PocketBase.Blazor/Hosting/PocketBaseHostBuilder.cs:41-47 | the generator, manifest and options are set and nothing else changes |
| `PocketBaseHostBuilder.Builder.UseSchemaTemplate` | src/PocketBase.Blazor/Hosting/PocketBaseHostBuilder.cs:49-57 | the template set becomes `WithTemplate` of the old one |
| `PocketBaseHostBuilder.Builder.UseSchemaTemplates` | src/PocketBase.Blazor/Hosting/PocketBaseHostBuilder.cs:59-69 | a null collection throws and changes nothing; otherwise each schema is added in turn |
| `PocketBaseHostBuilder.Builder.UseOptions` | src/PocketBase.Blazor/Hosting/PocketBaseHostBuilder.cs:71-75 | the callback, when given, edits the options; nothing else changes |
| `PocketBaseHostBuilder.Builder.UseLogger` | src/PocketBase.Blazor/Hosting/PocketBaseHostBuilder.cs:77-81 | the logger is set and nothing else changes |
| `PocketBaseHostBuilder.Builder.ApplyEnvironmentVariable` | src/PocketBase.Blazor/Hosting/PocketBaseHostBuilder.cs:132-157 | the options become `WithVariable` of the old ones |
| `PocketBaseHostBuilder.Builder.UseEnvironmentVariables` | src/PocketBase.Blazor/Hosting/PocketBaseHostBuilder.cs:111-130 | the options become the old ones with every applicable variable applied in order |
| `PocketBaseHostBuilder.Builder.ApplyConfiguration` | src/PocketBase.Blazor/Hosting/PocketBaseHostBuilder.cs:237-247 | options and executable path become `Configured` of the old ones |
| `PocketBaseHostBuilder.Builder.UseJsonConfiguration` | src/PocketBase.Blazor/Hosting/PocketBaseHostBuilder.cs:179-191 | the deserialized file is applied as a configuration |
| `PocketBaseHostBuilder.Builder.UseXmlConfiguration` | src/PocketBase.Blazor/Hosting/PocketBaseHostBuilder.cs:210-235 | the Executable element, when present, sets the path; then the options read from the document over the defaults are applied |
| `PocketBaseHostBuilder.Builder.UseConfigurationFile` | src/PocketBase.Blazor/Hosting/PocketBaseHostBuilder.cs:159-177 | a missing file throws "Configuration file not found"; an unsupported extension throws; either way nothing changes; otherwise the JSON or XML reading by extension |
| `PocketBaseHostBuilder.Builder.ResolveExecutable` | src/PocketBase.Blazor/Hosting/PocketBaseHostBuilder.cs:103 | the path is kept when set; otherwise the resolver's path is stored, and a resolver exception leaves it unset |
| `PocketBaseHostBuilder.GenerationError` | src/PocketBase.Blazor/Hosting/PocketBaseHostBuilder.cs:88-92 | no error without a cron generator; with one, exactly the error that `GenerateAsync` ends with |
| `PocketBaseHostBuilder.Builder.BuildAsync` | src/PocketBase.Blazor/Hosting/PocketBaseHostBuilder.cs:83-109 | a cron generator without manifest or options throws before anything changes; otherwise the crons are generated once, and a generation error ends the build with that error and nothing else changed; after a successful generation the templates are written when there are any, the executable resolved when missing, and the host launched as `Launch` says with the builder's options |

## Registration order in the cron server

In `cron-server/cron/runtime.go`, `RegisterCron` stores the payload first,
then removes the job of that id and adds the new one. It discards the error
that `Add` returns, so a rejected expression still gives success, with the
old job gone. `CronServerRuntime`'s lemmas state that order and that success.

## Left out

- Concurrency: the Go mutex, `Task.Run`, the channels, `ConcurrentDictionary` and the locks of the realtime clients are left out; every step is a sequential atomic map update, so races between an old firing and a newer payload are not modelled.
- The external cron scheduler's expression parser is a predicate parameter of `Scheduling.Scheduler`; how a job's time comes is not modelled, only firing on demand.
- HTTP and SSE I/O: `HttpClient.SendAsync`, `BatchClient.SendAsync`, response deserialisation and the reflection that builds list results are parameters (`exchange`, `decode`); the exception catches around them in `HandleResponse` are folded into those parameters.
- `HttpTransport.SendForStreamAsync` and `SendForSseAsync` are not modelled as streams; the realtime reader takes the lines of the stream as a `lines` parameter.
- `File.OpenRead` is the `open` parameter of `MultipartFile.FromFile`, whose failure the model returns as given.
- `EventStream.Feed`: `line.StartsWith("id:")`, `"event:"` and `"data:"` compare with the current culture, which skips ignorable code points such as U+00AD or U+0000 before or inside the prefix, after which the value is still cut at a fixed offset; the model compares ordinally, so such a line is ignored instead of read.
- JSON and XML parsing and serialisation, the `new Uri(baseUrl)` parse of the transport's base URL (the `uri` parameter of `HttpTransport.Transport.New`), percent-encoding (`Uri.EscapeDataString`, `HttpUtility.UrlEncode`, RFC 3986 section 2.1) and `filepath.Dir` are function parameters with no body of their own in the model.
- The file system and processes: the generator's file writes and the `go mod`/`go build` runs are reduced to their exit codes; the host's process start, stop and events (`StartAsync`, `StopAsync`, `DisposeAsync`) are not modelled; the download's temporary file, move, extraction and chmod are folded into one `fetched` outcome; `CronExampleHandlers.DbDump` returns the `sqlite3` command it would run, and that run and the failure it logs (`cron-server/cron/handlers.go:66-71`) are not modelled.
- The Fluid template rendering of the generator is not modelled; the values handed to the template are.
- Culture-sensitive `OrderBy` of the imports is modelled as ordinal order on character codes, proved a strict total order.
- `CreateClientSecret`'s ECDSA key handling and JWT creation are a `sign` parameter; only its argument checks are modelled.
- Floating point: JSON numbers are integers, so the `hello` handler's float64 count is an integer and the `indent` argument's conversion is not modelled.
- Logging (`ILogger`, `log.Println` contents beyond the default handler body) is not modelled; the logger is kept by identity only.
- `Enum.IsDefined` is modelled on the schema's integer value: the defined members are 0, 1 and 2.
- `BaseClient.FullList`: the page loop carries a fuel bound, because a server may report an ever-growing page count; a run that exhausts the fuel gives no result instead of looping for ever.
- `RealtimeClient.Client.EnsureConnected2`: the busy wait for a client id after the connection task starts is not run; the method returns `waits`, which says whether it would wait for ever.
- The `IAsyncEnumerable` subscriptions of `RealtimeClient.cs` (the `SubscribeAsync`, `EnsureConnectedAsync` and `SubscribeInternalAsync` overloads at lines 117-202) and of `RealtimeSseClient.cs` (lines 58-101) are not modelled beyond the subscribe request and the event reading they share with the callback form; `RealtimeSseClient.StreamRawEventsAsync` throws `NotImplementedException` and is not modelled.
- The decoding of a record event's JSON into action and record is a `parse` parameter of the dispatcher.
- `RealtimeBase.OnConnectionEvent`, `RealtimeSseClient.SseClient.HandleEvent` and `RealtimeClient.Client.Dispatch`: `JsonDocument.Parse` and `GetProperty` throw on malformed or incomplete event data, which ends the connection or dispatcher task in the source; the model's `dec` and `parse` parameters are total, so that failure is not modelled.
- `EventStream.NewLine` is "\n", the value of `Environment.NewLine` on Unix; on Windows the source joins data lines with "\r\n", which is not modelled.
- `Paths.Combine`, `Paths.FileName` and `Paths.Extension`, as used by `MigrationWriter` and `CronGenerator`, follow the Unix separator '/'; Windows separators are modelled only for `BinaryResolver.LocalExecutablePath`.
- `HttpTransport.Transport.constructor`: the browser case in which `TryAddHeader` refuses the User-Agent header is a `userAgentAllowed` parameter.
- `MultipartFile.Dispose` only disposes the stream and is not modelled.
- `PocketBaseHostOptions.cs` is not part of this model; its default values are a parameter of the builder and of `PocketBaseHost.New`.
- `PocketBaseHostBuilder.Builder`: the host receives a copy of the options value, so later edits through the builder's `_options` reference, which the C# host shares, are not modelled.
- `PocketBaseHostBuilder.Builder.BuildAsync`: the `GenerateAsync` run is recorded in `cronRuns` by its arguments; what it generates is modelled separately by `CronGenerator`.
- `UseYamlConfiguration` throws `NotImplementedException`, and `ApplyDictionaryConfiguration` is never called; neither is modelled.
- The exceptions that `File.ReadAllText`, the JSON deserializer and `XDocument.Parse` may throw are not modelled; the file is read by a total `read` parameter.
- Case mapping (`ToUpperInvariant`, `ToLowerInvariant`, `OrdinalIgnoreCase`) is modelled for ASCII letters only.
- `PocketbaseServerHandlers.Registry.Dispatch`: `pocketbase-server/handlers.go:30` calls a misspelled `hasndler`, which does not compile; the model calls the handler looked up at line 18, as evidently intended.
- `PocketbaseServerCron.Runtime.RegisterCron`: `pocketbase-server/cron.go:22` passes a `CronHandler` where `Add` expects a `func()`, which does not compile; the model installs a job that calls the handler itself with an empty payload.

## Findings

| source | as written | input that shows it | evidently intended | confidence | as-written member | corrected member |
|---|---|---|---|---|---|---|
| src/PocketBase.Blazor/Clients/BaseClient.cs:40 | `GetListAsync` stores the built query in `options.Query`, and `BuildQuery` returns a stored query unchanged. So once `GetFullListAsync(FullListOptions)` passes options without a query, every page request after the first reuses the query that asks for page 1 | options with no query; a server with two pages holding [1] and [2]; the full list comes back as [1, 1] | each request of the loop asks for its own page number, giving [1, 2] | not executed | `BaseClient.AsWrittenOptionsRepeatFirstPage` | `BaseClient.CorrectedCollectsAllPages` |
