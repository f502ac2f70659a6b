# Request gating of searchcode's API route service

This project models how `ApiRouteService` in searchcode-server answers its
five repository-management API calls. The calls are `repositoryReindex`,
`repositoryIndex`, `repoList`, `repoDelete` and `repoAdd`. The behaviour
modelled is the one the service's unit tests fix
(`src/test/java/com/searchcode/app/service/ApiRouteServiceTest.java`).

Every call runs the same stages in order:

1. The API-enabled gate. A disabled API answers "API not enabled" and does nothing else.
2. Its gates: the required parameters and, when `apiAuth` is on, the signature check. The signature check looks at `pub`, then at `sig`, then asks the validator about the canonical string under SHA1. The first gate that fails decides the answer.
3. Its business action. Reindex calls `rebuildAll()` and, only when it succeeds, `forceEnqueue()`. Index-one looks up and enqueues one repository. List returns every repository. Delete queues the named repository for deletion. Add saves a new record.

Modules:

- `ApiTypes` holds the values: the request's query parameters (absent = null), responses, repository records, the two flags, and the collaborators' answers (`Services`).
- `Signing` builds the canonical string `pub=<pub>&<name>=<value>...` and reads it back (`ParseQuery`).
- `Gates` holds the gates and `RunGates`, which runs them in order and stops at the first failure.
- `Routes` holds the per-operation pipelines and actions, and `Handle`, the specification of one call. `Handle` returns the response together with the calls made on `JobService`, on the `Repo` DAO and on the deletion queue (`Effects`).
- `RouteProperties` holds the lemmas: which gate answers, the exact messages, the canonical strings, and what each action does.
- `RouteService` is the `ApiRouteService` object, with the two flags, the deletion queue and a record of collaborator calls as fields. Each operation is a method that checks the API-enabled flag, runs its gates with one `RunGates` call, and then performs its action step by step. Each method is proved to answer as `Handle` does and to change the queue and the call record by exactly `Handle`'s effects.
- `RouteScenarios` replays nine of the unit tests' scenarios (13 of the 37 tests) against that object.

The tests leave some things open:

- whether delete checks `reponame` before or after the signature;
- whether add checks its seven fields before or after the signature;
- the message of a delete whose repository is not found.

These are the fields of `OpenChoices`. Every property holds for every choice. `OpenOrderOnlyMattersWhenBothFail` shows that the choice changes the answer only for a request that is both missing a field and subject to the signature gate.

## Model

| member | source | states |
|---|---|---|
| Signing.CanonicalAgreeSnoc | src/test/java/com/searchcode/app/service/ApiRouteServiceTest.java:643-668 | two requests that agree on the canonical string and on one more field's value still agree once that field is signed |
| Signing.CanonicalSnoc | src/test/java/com/searchcode/app/service/ApiRouteServiceTest.java:643-668 | signing one more field appends `&name=value` to the canonical string |
| Signing.ParseJoined | src/test/java/com/searchcode/app/service/ApiRouteServiceTest.java:405-427 | the canonical string reads back, by splitting at `&` and then at the first `=`, into exactly the pairs that were joined, when no name holds `=` or `&` and no value holds `&` |
| Signing.CanonicalDeterminesValues | src/test/java/com/searchcode/app/service/ApiRouteServiceTest.java:670-696 | when no signed value contains `&`, two requests with the same canonical string have the same `pub` and the same rendered value for every signed field (an absent field reads as `null`), so a signature covers each signed value |
| Gates.RunGates | src/test/java/com/searchcode/app/service/ApiRouteServiceTest.java:443-567 | no message exactly when every gate passes; otherwise the message of some failing gate before which every gate passed |
| Gates.FirstFailureWins | src/test/java/com/searchcode/app/service/ApiRouteServiceTest.java:340-358 | when gate k is the first to fail, the pipeline answers with gate k's message, whatever fails later |
| Gates.RunGatesAppend | src/test/java/com/searchcode/app/service/ApiRouteServiceTest.java:592-615 | two pipelines run back to back answer as the first one when it fails, and as the second one otherwise |
| Gates.FieldGatesReportFirstAbsent | src/test/java/com/searchcode/app/service/ApiRouteServiceTest.java:443-567 | the field gates pass exactly when every field is present; otherwise they report "<field> is a required parameter" for the first absent field |
| Routes.PassedPipelineHasFields | src/test/java/com/searchcode/app/service/ApiRouteServiceTest.java:307-338 | a request the gates let through carries every required field of its operation |
| Routes.Act | src/test/java/com/searchcode/app/service/ApiRouteServiceTest.java:30-63 | the business actions respect the effect rules: failures enqueue and save nothing; forceEnqueue follows one rebuildAll and only for reindex; only a successful list carries a list; a successful index, delete or add touches exactly one repository |
| Routes.Handle | src/test/java/com/searchcode/app/service/ApiRouteServiceTest.java:20-28 | a disabled API answers "API not enabled" with no effects, whatever the operation; every answer respects the effect rules |
| RouteProperties.PipelinePasses | src/test/java/com/searchcode/app/service/ApiRouteServiceTest.java:117-138 | the gates let a request through exactly when every required field is present and, under authentication for a signed operation, `pub` and `sig` are present and the validator accepts the canonical string under SHA1 |
| RouteProperties.SuccessPassedEveryGate | src/test/java/com/searchcode/app/service/ApiRouteServiceTest.java:670-696 | a successful answer implies the API is enabled, every required field is present and, under authentication, for a signed operation, the signature is valid |
| RouteProperties.AdmittedRequestActs | src/test/java/com/searchcode/app/service/ApiRouteServiceTest.java:117-138 | a request that passes every gate is answered by the operation's business action |
| RouteProperties.AuthFailureAnswers | src/test/java/com/searchcode/app/service/ApiRouteServiceTest.java:254-272 | when the signature gate fails and nothing before it fails, the answer is the signature gate's message with no effects |
| RouteProperties.MissingPubRefused | src/test/java/com/searchcode/app/service/ApiRouteServiceTest.java:65-78 | under authentication, a signed operation without `pub`, when every field is present or the signature is checked first, is refused with "pub is a required parameter" and does nothing |
| RouteProperties.MissingSigRefused | src/test/java/com/searchcode/app/service/ApiRouteServiceTest.java:80-94 | under authentication, for a signed operation, with `pub` but no `sig`, when every field is present or the signature is checked first, the answer is "sig is a required parameter" and nothing is done |
| RouteProperties.BadSignatureRefused | src/test/java/com/searchcode/app/service/ApiRouteServiceTest.java:96-115 | under authentication, for a signed operation, with `pub` and `sig` but a signature the validator rejects, when every field is present or the signature is checked first, the answer is "invalid signed url" and nothing is done |
| RouteProperties.FirstAbsentFieldReported | src/test/java/com/searchcode/app/service/ApiRouteServiceTest.java:443-567 | when fields are checked first, or without authentication, or when the signature is valid, the first absent field in declaration order is reported as "<field> is a required parameter" |
| RouteProperties.GateOrderIrrelevant | src/test/java/com/searchcode/app/service/ApiRouteServiceTest.java:340-358 | without authentication, or with every field present, checking fields or signature first gives the same verdict |
| RouteProperties.OpenOrderOnlyMattersWhenBothFail | src/test/java/com/searchcode/app/service/ApiRouteServiceTest.java:340-358 | the orders the tests leave open change the answer only for a request both missing a field and under the signature gate |
| RouteProperties.ReindexOutcome | src/test/java/com/searchcode/app/service/ApiRouteServiceTest.java:30-63 | an admitted reindex answers "reindex forced" after one rebuildAll and one forceEnqueue; when rebuildAll fails, "was unable to force the index" after one rebuildAll and no forceEnqueue |
| RouteProperties.IndexOneOutcome | src/test/java/com/searchcode/app/service/ApiRouteServiceTest.java:150-196 | index-one looks up repoUrl and answers "Enqueued repository <url>", enqueuing that repository, or "Was unable to find repository <url>" with `null` for an absent url; the signature settings play no part |
| RouteProperties.ListOutcome | src/test/java/com/searchcode/app/service/ApiRouteServiceTest.java:210-222 | an admitted list answers successfully with an empty message and every repository the DAO holds, and has no effects |
| RouteProperties.DeleteOutcome | src/test/java/com/searchcode/app/service/ApiRouteServiceTest.java:320-338 | an admitted delete queues exactly the repository named by reponame and answers "repository queued for deletion"; an unknown name queues nothing |
| RouteProperties.AddOutcome | src/test/java/com/searchcode/app/service/ApiRouteServiceTest.java:569-590 | an admitted add answers "added repository successfully" and saves exactly one record, whose seven fields are the request's seven parameters |
| RouteProperties.CanonicalStrings | src/test/java/com/searchcode/app/service/ApiRouteServiceTest.java:405-427 | reindex and list sign `pub=<pub>`; delete signs `pub=<pub>&reponame=<reponame>` |
| RouteProperties.AddCanonicalString | src/test/java/com/searchcode/app/service/ApiRouteServiceTest.java:643-668 | add signs `pub=<pub>` followed by reponame, repourl, repotype, repousername, repopassword, reposource and repobranch, in that order |
| RouteProperties.AddCanonicalOfTestRequest | src/test/java/com/searchcode/app/service/ApiRouteServiceTest.java:648 | an add request whose seven fields are all `test`, signed with pub `test`, has the canonical string `pub=test&reponame=test&repourl=test&repotype=test&repousername=test&repopassword=test&reposource=test&repobranch=test` |
| RouteProperties.FirstTwoFieldsCollide | src/test/java/com/searchcode/app/service/ApiRouteServiceTest.java:643-668 | reponame `x&repourl=y` with repourl `z` and reponame `x` with repourl `y&repourl=z` give the same canonical prefix |
| RouteProperties.AmpersandValuesCollide | src/test/java/com/searchcode/app/service/ApiRouteServiceTest.java:643-696 | two add requests with every field present whose saved records differ have the same canonical string, because a value may contain `&` |
| RouteService.ApiRouteService.constructor | src/test/java/com/searchcode/app/service/ApiRouteServiceTest.java:320-331 | a new service holds its collaborators and flags, an empty deletion queue and no recorded calls |
| RouteService.ApiRouteService.RepositoryReindex | src/test/java/com/searchcode/app/service/ApiRouteServiceTest.java:30-63 | answers as Handle does and adds exactly Handle's rebuildAll and forceEnqueue calls to the record |
| RouteService.ApiRouteService.RepositoryIndex | src/test/java/com/searchcode/app/service/ApiRouteServiceTest.java:150-196 | answers as Handle does and appends exactly Handle's enqueued repository to the record |
| RouteService.ApiRouteService.RepoList | src/test/java/com/searchcode/app/service/ApiRouteServiceTest.java:274-293 | answers as Handle does and changes nothing |
| RouteService.ApiRouteService.RepoDelete | src/test/java/com/searchcode/app/service/ApiRouteServiceTest.java:405-427 | answers as Handle does and appends exactly Handle's repository to the deletion queue |
| RouteService.ApiRouteService.RepoAdd | src/test/java/com/searchcode/app/service/ApiRouteServiceTest.java:670-696 | answers as Handle does and appends exactly Handle's saved record to the record of saves |
| RouteScenarios.ReindexWithoutAuth | src/test/java/com/searchcode/app/service/ApiRouteServiceTest.java:30-45 | "reindex forced", one more rebuildAll and one more forceEnqueue, and nothing else changes |
| RouteScenarios.ReindexRebuildFails | src/test/java/com/searchcode/app/service/ApiRouteServiceTest.java:47-63 | "was unable to force the index", one more rebuildAll and no forceEnqueue, and nothing else changes |
| RouteScenarios.DisabledRefusesNull | src/test/java/com/searchcode/app/service/ApiRouteServiceTest.java:433-441 | a disabled API answers "API not enabled" to a null request on all five calls and records no calls |
| RouteScenarios.IndexWithoutRepoUrl | src/test/java/com/searchcode/app/service/ApiRouteServiceTest.java:150-163 | no repoUrl: "Was unable to find repository null", nothing enqueued, and nothing else changes |
| RouteScenarios.IndexKnownRepository | src/test/java/com/searchcode/app/service/ApiRouteServiceTest.java:181-196 | a known repoUrl: "Enqueued repository http://test/", that repository enqueued, and nothing else changes |
| RouteScenarios.DeleteWithoutAuth | src/test/java/com/searchcode/app/service/ApiRouteServiceTest.java:320-338 | "repository queued for deletion" and the queue grows by exactly the repository named `unit-test`; nothing else changes |
| RouteScenarios.DeleteBadSignature | src/test/java/com/searchcode/app/service/ApiRouteServiceTest.java:381-403 | "invalid signed url" and nothing changes |
| RouteScenarios.DeleteWithoutPub | src/test/java/com/searchcode/app/service/ApiRouteServiceTest.java:340-358 | "pub is a required parameter" and nothing changes |
| RouteScenarios.AddWithoutAuth | src/test/java/com/searchcode/app/service/ApiRouteServiceTest.java:569-590 | "added repository successfully" and exactly one record, holding the seven given values, saved; nothing else changes |

## Left out

- The HMAC computation inside `ApiService.validateRequest` is not modelled. The validator is an uninterpreted function of (pub, sig, canonical string, hash type), and only `SHA1` is passed.
- The Spark `Request`/`Response` objects, Mockito and the service's wiring are replaced by a map of query parameters and a `Services` value that gives the collaborators' answers.
- The internals of `JobService` and of the `Repo` DAO are not modelled. Their answers are fields of `Services`, and the calls made on them are counted or recorded in `Effects`.
- The deletion queue (`UniqueRepoQueue`) is a plain sequence. Its duplicate suppression and its thread safety are not modelled; no test queues a repository twice.
- The orders the tests leave open, and the message of a delete whose repository is not found, are parameters (`OpenChoices`) rather than fixed.
- Index-one has no signature gate in this model: its tests (lines 150-196) never set `apiAuth`, send no `pub` or `sig`, and expect the repository lookup to answer.
- Routes.Act: index-one ignores what `forceEnqueue(repo)` returns. The tests only stub it to succeed, so a failed enqueue is not modelled.
- Whether an empty or blank parameter counts as missing is not modelled. Only an absent (null) parameter fails a required-parameter gate, as in the tests.
- Routes.Handle: requires a request whenever the API is enabled. The tests pass a null request only to a disabled API, and the Java code would fail on a null request once past that gate.
- Signing.CanonicalDeterminesValues: holds only when no signed value contains `&`. The model joins raw values by plain concatenation, which does not bind such values, as RouteProperties.AmpersandValuesCollide shows. Every signed value in the tests (`test`, `unit-test`) reads the same URL-encoded or not, so the tests cannot tell whether the service encodes values; the model takes plain concatenation.
- The `RepoResult` built by add keeps only the seven request fields. Its other fields and persistence are not modelled.
